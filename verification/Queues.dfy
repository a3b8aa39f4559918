// The table of process queues: every list of processes is threaded through one array whose
// first NPROC entries belong to processes and whose other entries are list heads and tails
// (include/queue.h, system/queue.c, system/getitem.c, system/insert.c, system/insertd.c).

module Queues {

  import opened Common

  const NPROC := 100
  const NSEM := 100
  const NFUT := 20
  const NQENT := NPROC + 4 + NSEM + NSEM + NFUT + NFUT
  const EMPTY := -1
  const MAXKEY := 0x7FFF_FFFF
  const MINKEY := -0x8000_0000

  datatype QEntry = QEntry(qkey: int, qnext: int, qprev: int)

  /** What the table stands for: the processes on each list, the list on which each process
      is (or EMPTY), and the key of each process. */
  datatype Lists = Lists(on: map<int, seq<int>>, home: seq<int>, key: seq<int>)

  // ---- the lists -----------------------------------------------------------------------

  /** q is the index of a list head. */
  predicate IsHead(q: int) { NPROC <= q < NQENT - 1 && q % 2 == NPROC % 2 }

  /** A process is on the list that home names, once, and on no other. */
  ghost predicate Shape(s: Lists)
  {
    && |s.home| == NPROC && |s.key| == NPROC
    && (forall q :: q in s.on ==> IsHead(q) && NoDup(s.on[q]))
    && (forall q, i :: q in s.on && 0 <= i < |s.on[q]| ==> 0 <= s.on[q][i] < NPROC && s.home[s.on[q][i]] == q)
    && (forall p :: 0 <= p < NPROC && s.home[p] != EMPTY ==> s.home[p] in s.on && p in s.on[s.home[p]])
  }

  function Put(l: seq<int>, i: int, p: int): seq<int>
    requires 0 <= i <= |l|
  {
    l[..i] + [p] + l[i..]
  }

  function Drop(l: seq<int>, i: int): seq<int>
    requires 0 <= i < |l|
  {
    l[..i] + l[i + 1..]
  }

  /** Process p comes to stand at place i of list q. */
  function PutAt(s: Lists, q: int, i: int, p: int): Lists
    requires q in s.on && 0 <= i <= |s.on[q]| && 0 <= p < |s.home|
  {
    s.(on := s.on[q := Put(s.on[q], i, p)], home := s.home[p := q])
  }

  function DropAt(s: Lists, q: int, i: int): Lists
    requires q in s.on && 0 <= i < |s.on[q]| && 0 <= s.on[q][i] < |s.home|
  {
    s.(on := s.on[q := Drop(s.on[q], i)], home := s.home[s.on[q][i] := EMPTY])
  }

  function WithKey(s: Lists, p: int, k: int): Lists
    requires 0 <= p < |s.key|
  {
    s.(key := s.key[p := k])
  }

  lemma PutIsIn(l: seq<int>, i: int, p: int, x: int)
    requires 0 <= i <= |l|
    ensures x in Put(l, i, p) <==> x == p || x in l
  {
    if x in l {
      var j :| 0 <= j < |l| && l[j] == x;
      assert Put(l, i, p)[if j < i then j else j + 1] == x;
    }
    assert Put(l, i, p)[i] == p;
  }

  lemma PutNoDup(l: seq<int>, i: int, p: int)
    requires NoDup(l) && p !in l && 0 <= i <= |l|
    ensures NoDup(Put(l, i, p))
  {
  }

  lemma DropIsIn(l: seq<int>, i: int, x: int)
    requires NoDup(l) && 0 <= i < |l|
    ensures x in Drop(l, i) <==> x != l[i] && x in l
  {
    if x in l && x != l[i] {
      var j :| 0 <= j < |l| && l[j] == x;
      assert Drop(l, i)[if j < i then j else j - 1] == x;
    }
  }

  lemma DropNoDup(l: seq<int>, i: int)
    requires NoDup(l) && 0 <= i < |l|
    ensures NoDup(Drop(l, i))
  {
  }

  lemma HomeOfIndex(s: Lists, q: int, i: int)
    requires Shape(s) && q in s.on && 0 <= i < |s.on[q]|
    ensures 0 <= s.on[q][i] < NPROC && s.home[s.on[q][i]] == q && IsHead(q)
  {
  }

  lemma OnHome(s: Lists, q: int, p: int)
    requires Shape(s) && q in s.on && p in s.on[q]
    ensures 0 <= p < NPROC && s.home[p] == q && IsHead(q)
  {
    var i :| 0 <= i < |s.on[q]| && s.on[q][i] == p;
    HomeOfIndex(s, q, i);
  }

  ghost predicate AtHome(s: Lists, q: int)
    requires q in s.on
  {
    forall p :: p in s.on[q] ==> 0 <= p < |s.home| && s.home[p] == q
  }

  lemma ShapeOfLists(s: Lists)
    requires |s.home| == NPROC && |s.key| == NPROC
    requires forall q :: q in s.on ==> IsHead(q) && NoDup(s.on[q])
    requires forall q :: q in s.on ==> AtHome(s, q)
    requires forall p :: 0 <= p < NPROC && s.home[p] != EMPTY ==> s.home[p] in s.on && p in s.on[s.home[p]]
    ensures Shape(s)
  {
    forall q, i | q in s.on && 0 <= i < |s.on[q]|
      ensures 0 <= s.on[q][i] < NPROC && s.home[s.on[q][i]] == q
    {
      assert AtHome(s, q) && s.on[q][i] in s.on[q];
    }
  }

  lemma ListNoDup(s: Lists, q: int)
    requires Shape(s) && q in s.on
    ensures NoDup(s.on[q]) && IsHead(q)
  {
  }

  lemma HomeHolds(s: Lists, p: int)
    requires Shape(s) && 0 <= p < NPROC && s.home[p] != EMPTY
    ensures s.home[p] in s.on && p in s.on[s.home[p]]
  {
  }

  lemma PutShape(s: Lists, q: int, i: int, p: int)
    requires Shape(s) && q in s.on && 0 <= i <= |s.on[q]| && 0 <= p < NPROC && s.home[p] == EMPTY
    ensures Shape(PutAt(s, q, i, p))
  {
    hide Shape, NoDup, IsHead;
    ShapeSizes(s);
    var t := PutAt(s, q, i, p);
    forall r | r in t.on
      ensures IsHead(r) && NoDup(t.on[r])
    {
      ListNoDup(s, r);
      if r == q {
        if p in s.on[q] {
          OnHome(s, q, p);
        }
        PutNoDup(s.on[q], i, p);
      }
    }
    forall r | r in t.on
      ensures AtHome(t, r)
    {
      forall x | x in t.on[r]
        ensures 0 <= x < NPROC && t.home[x] == r
      {
        if r == q {
          PutIsIn(s.on[q], i, p, x);
        }
        if x in s.on[r] {
          OnHome(s, r, x);
          HeadNotEmpty(r);
        }
      }
    }
    forall x | 0 <= x < NPROC && t.home[x] != EMPTY
      ensures t.home[x] in t.on && x in t.on[t.home[x]]
    {
      PutIsIn(s.on[q], i, p, x);
      if x != p {
        HomeHolds(s, x);
      }
    }
    ShapeOfLists(t);
  }

  lemma HeadNotEmpty(q: int)
    requires IsHead(q)
    ensures q >= NPROC && q != EMPTY
  {
  }

  lemma ShapeSizes(s: Lists)
    requires Shape(s)
    ensures |s.home| == NPROC && |s.key| == NPROC
  {
  }

  lemma DropShape(s: Lists, q: int, i: int)
    requires Shape(s) && q in s.on && 0 <= i < |s.on[q]|
    ensures 0 <= s.on[q][i] < |s.home| && Shape(DropAt(s, q, i))
  {
    hide Shape, NoDup, IsHead;
    ShapeSizes(s);
    HomeOfIndex(s, q, i);
    var p := s.on[q][i];
    var t := DropAt(s, q, i);
    ListNoDup(s, q);
    forall r | r in t.on
      ensures IsHead(r) && NoDup(t.on[r])
    {
      ListNoDup(s, r);
      DropNoDup(s.on[q], i);
    }
    forall r | r in t.on
      ensures AtHome(t, r)
    {
      forall x | x in t.on[r]
        ensures 0 <= x < NPROC && t.home[x] == r
      {
        if r == q {
          DropIsIn(s.on[q], i, x);
        }
        OnHome(s, r, x);
      }
    }
    forall x | 0 <= x < NPROC && t.home[x] != EMPTY
      ensures t.home[x] in t.on && x in t.on[t.home[x]]
    {
      HomeHolds(s, x);
      DropIsIn(s.on[q], i, x);
    }
    ShapeOfLists(t);
  }

  lemma KeyShape(s: Lists, p: int, k: int)
    requires Shape(s) && 0 <= p < NPROC
    ensures Shape(WithKey(s, p, k))
  {
  }

  // ---- the links -------------------------------------------------------------------------

  /** Node i of a list: its head, its processes, its tail. */
  function Node(q: int, l: seq<int>, i: int): int
    requires 0 <= i <= |l| + 1
  {
    if i == 0 then q else if i <= |l| then l[i - 1] else q + 1
  }

  predicate Link(t: seq<QEntry>, a: int, b: int)
  {
    0 <= a < |t| && 0 <= b < |t| && t[a].qnext == b && t[b].qprev == a
  }

  /** The processes of l, doubly linked in this order between head and tail. */
  ghost predicate Chained(t: seq<QEntry>, q: int, l: seq<int>)
  {
    && (forall i :: 0 <= i <= |l| ==> Link(t, Node(q, l, i), Node(q, l, i + 1)))
    && 0 <= q && q + 1 < |t| && t[q].qkey == MAXKEY && t[q + 1].qkey == MINKEY
  }

  ghost predicate Threaded(t: seq<QEntry>, s: Lists)
  {
    && |t| == NQENT
    && Shape(s)
    && (forall q :: q in s.on ==> Chained(t, q, s.on[q]))
    && (forall p :: 0 <= p < NPROC ==> t[p].qkey == s.key[p])
  }

  /** Different places are different table entries. */
  lemma NodesDiffer(s: Lists, q: int, i: int, r: int, j: int)
    requires Shape(s) && q in s.on && r in s.on && 0 <= i <= |s.on[q]| + 1 && 0 <= j <= |s.on[r]| + 1
    requires q != r || i != j
    ensures Node(q, s.on[q], i) != Node(r, s.on[r], j)
  {
    ListNoDup(s, q);
    ListNoDup(s, r);
    if 0 < i <= |s.on[q]| {
      HomeOfIndex(s, q, i - 1);
    }
    if 0 < j <= |s.on[r]| {
      HomeOfIndex(s, r, j - 1);
    }
  }

  /** A process on no list is no node of any. */
  lemma OffNode(s: Lists, p: int, r: int, j: int)
    requires Shape(s) && 0 <= p < NPROC && s.home[p] == EMPTY && r in s.on && 0 <= j <= |s.on[r]| + 1
    ensures Node(r, s.on[r], j) != p
  {
    ListNoDup(s, r);
    if 0 < j <= |s.on[r]| {
      HomeOfIndex(s, r, j - 1);
    }
  }

  lemma LinkAt(t: seq<QEntry>, s: Lists, q: int, i: int)
    requires Threaded(t, s) && q in s.on && 0 <= i <= |s.on[q]|
    ensures Link(t, Node(q, s.on[q], i), Node(q, s.on[q], i + 1)) && |t| == NQENT
  {
    assert Chained(t, q, s.on[q]);
  }

  lemma EndKeys(t: seq<QEntry>, s: Lists, q: int)
    requires Threaded(t, s) && q in s.on
    ensures Shape(s) && |t| == NQENT
    ensures 0 <= q && q + 1 < |t| && t[q].qkey == MAXKEY && t[q + 1].qkey == MINKEY
  {
    assert Chained(t, q, s.on[q]);
  }

  /** The writes that put process p between places i and i + 1 of list q. */
  function Spliced(t: seq<QEntry>, q: int, l: seq<int>, i: int, p: int, k: int): seq<QEntry>
    requires 0 <= i <= |l| && 0 <= p < |t| && 0 <= Node(q, l, i) < |t| && 0 <= Node(q, l, i + 1) < |t|
  {
    var t1 := t[p := QEntry(k, Node(q, l, i + 1), Node(q, l, i))];
    var t2 := t1[Node(q, l, i) := t1[Node(q, l, i)].(qnext := p)];
    t2[Node(q, l, i + 1) := t2[Node(q, l, i + 1)].(qprev := p)]
  }

  /** The writes that take the process at place i out of list q. */
  function Cut(t: seq<QEntry>, q: int, l: seq<int>, i: int): seq<QEntry>
    requires 0 <= i < |l| && 0 <= Node(q, l, i) < |t| && 0 <= Node(q, l, i + 2) < |t|
  {
    var t1 := t[Node(q, l, i) := t[Node(q, l, i)].(qnext := Node(q, l, i + 2))];
    t1[Node(q, l, i + 2) := t1[Node(q, l, i + 2)].(qprev := Node(q, l, i))]
  }

  lemma Ends(q: int, l: seq<int>)
    ensures Node(q, l, 0) == q && Node(q, l, |l| + 1) == q + 1
  {
  }

  lemma PutNode(q: int, l: seq<int>, i: int, p: int, j: int)
    requires 0 <= i <= |l| && 0 <= j <= |l| + 2
    ensures |Put(l, i, p)| == |l| + 1
    ensures Node(q, Put(l, i, p), j) == if j <= i then Node(q, l, j) else if j == i + 1 then p else Node(q, l, j - 1)
  {
  }

  lemma DropNode(q: int, l: seq<int>, i: int, j: int)
    requires 0 <= i < |l| && 0 <= j <= |l|
    ensures |Drop(l, i)| == |l| - 1
    ensures Node(q, Drop(l, i), j) == if j <= i then Node(q, l, j) else Node(q, l, j + 1)
  {
  }

  lemma SplicedLink(t: seq<QEntry>, s: Lists, q: int, i: int, p: int, k: int, j: int)
    requires Threaded(t, s) && q in s.on && 0 <= i <= |s.on[q]| && 0 <= p < NPROC && s.home[p] == EMPTY
    requires 0 <= p < |t| && 0 <= Node(q, s.on[q], i) < |t| && 0 <= Node(q, s.on[q], i + 1) < |t|
    requires 0 <= j <= |s.on[q]| + 1
    ensures |Put(s.on[q], i, p)| == |s.on[q]| + 1
    ensures var l' := Put(s.on[q], i, p);
            Link(Spliced(t, q, s.on[q], i, p, k), Node(q, l', j), Node(q, l', j + 1))
  {
    hide Threaded, Shape, NoDup, IsHead, Node, Put, Chained;
    var l := s.on[q];
    EndKeys(t, s, q);
    PutNode(q, l, i, p, j);
    PutNode(q, l, i, p, j + 1);
    OffNode(s, p, q, i);
    OffNode(s, p, q, i + 1);
    NodesDiffer(s, q, i, q, i + 1);
    if j < i || j > i + 1 {
      var o := if j < i then j else j - 1;
      LinkAt(t, s, q, o);
      OffNode(s, p, q, o);
      OffNode(s, p, q, o + 1);
      NodesDiffer(s, q, o, q, i);
      NodesDiffer(s, q, o + 1, q, i + 1);
    }
  }

  lemma SplicedOwn(t: seq<QEntry>, s: Lists, q: int, i: int, p: int, k: int)
    requires Threaded(t, s) && q in s.on && 0 <= i <= |s.on[q]| && 0 <= p < NPROC && s.home[p] == EMPTY
    requires 0 <= p < |t| && 0 <= Node(q, s.on[q], i) < |t| && 0 <= Node(q, s.on[q], i + 1) < |t|
    ensures Chained(Spliced(t, q, s.on[q], i, p, k), q, Put(s.on[q], i, p))
  {
    hide Threaded, Shape, NoDup, IsHead, Put, Node;
    var l := s.on[q];
    EndKeys(t, s, q);
    OffNode(s, p, q, 0);
    OffNode(s, p, q, |l| + 1);
    Ends(q, l);
    PutNode(q, l, i, p, 0);
    forall j | 0 <= j <= |Put(l, i, p)|
      ensures Link(Spliced(t, q, l, i, p, k), Node(q, Put(l, i, p), j), Node(q, Put(l, i, p), j + 1))
    {
      SplicedLink(t, s, q, i, p, k, j);
    }
  }

  lemma SplicedOther(t: seq<QEntry>, s: Lists, q: int, i: int, p: int, k: int, r: int)
    requires Threaded(t, s) && q in s.on && 0 <= i <= |s.on[q]| && 0 <= p < NPROC && s.home[p] == EMPTY
    requires 0 <= Node(q, s.on[q], i) < |t| && 0 <= Node(q, s.on[q], i + 1) < |t|
    requires r in s.on && r != q
    ensures Chained(Spliced(t, q, s.on[q], i, p, k), r, s.on[r])
  {
    hide Threaded, Shape, NoDup, IsHead;
    var l, m := s.on[q], s.on[r];
    EndKeys(t, s, r);
    var t' := Spliced(t, q, l, i, p, k);
    forall j | 0 <= j <= |m| + 1
      ensures 0 <= Node(r, m, j) < |t| && t'[Node(r, m, j)] == t[Node(r, m, j)]
    {
      LinkAt(t, s, r, if j == 0 then 0 else j - 1);
      OffNode(s, p, r, j);
      NodesDiffer(s, q, i, r, j);
      NodesDiffer(s, q, i + 1, r, j);
    }
    assert t'[Node(r, m, 0)] == t[r] && t'[Node(r, m, |m| + 1)] == t[r + 1];
    forall j | 0 <= j <= |m|
      ensures Link(t', Node(r, m, j), Node(r, m, j + 1))
    {
      LinkAt(t, s, r, j);
    }
  }

  /** Splicing a process in: the table keeps its shape. */
  lemma PutThreaded(t: seq<QEntry>, s: Lists, q: int, i: int, p: int, k: int)
    requires Threaded(t, s) && q in s.on && 0 <= i <= |s.on[q]| && 0 <= p < NPROC && s.home[p] == EMPTY
    ensures |t| == NQENT && |s.key| == NPROC && |s.home| == NPROC
    ensures 0 <= Node(q, s.on[q], i) < |t| && 0 <= Node(q, s.on[q], i + 1) < |t|
    ensures Threaded(Spliced(t, q, s.on[q], i, p, k), WithKey(PutAt(s, q, i, p), p, k))
  {
    hide Shape, NoDup, IsHead, Chained;
    ShapeSizes(s);
    LinkAt(t, s, q, i);
    PutShape(s, q, i, p);
    KeyShape(PutAt(s, q, i, p), p, k);
    SplicedOwn(t, s, q, i, p, k);
    forall r | r in s.on && r != q
      ensures Chained(Spliced(t, q, s.on[q], i, p, k), r, s.on[r])
    {
      SplicedOther(t, s, q, i, p, k, r);
    }
    OffNode(s, p, q, i);
    OffNode(s, p, q, i + 1);
  }

  lemma CutOwn(t: seq<QEntry>, s: Lists, q: int, i: int)
    requires Threaded(t, s) && q in s.on && 0 <= i < |s.on[q]|
    requires 0 <= Node(q, s.on[q], i) < |t| && 0 <= Node(q, s.on[q], i + 2) < |t|
    ensures Chained(Cut(t, q, s.on[q], i), q, Drop(s.on[q], i))
  {
    hide Threaded, Shape, NoDup, IsHead;
    var l := s.on[q];
    var t', l' := Cut(t, q, l, i), Drop(l, i);
    EndKeys(t, s, q);
    NodesDiffer(s, q, i, q, i + 2);
    forall j | 0 <= j <= |l'|
      ensures Link(t', Node(q, l', j), Node(q, l', j + 1))
    {
      if j == i {
        assert Node(q, l', i) == Node(q, l, i) && Node(q, l', i + 1) == Node(q, l, i + 2);
      } else {
        var o := if j < i then j else j + 1;
        assert Node(q, l', j) == Node(q, l, o) && Node(q, l', j + 1) == Node(q, l, o + 1);
        LinkAt(t, s, q, o);
        NodesDiffer(s, q, o, q, i);
        NodesDiffer(s, q, o + 1, q, i + 2);
      }
    }
  }

  lemma CutOther(t: seq<QEntry>, s: Lists, q: int, i: int, r: int)
    requires Threaded(t, s) && q in s.on && 0 <= i < |s.on[q]|
    requires 0 <= Node(q, s.on[q], i) < |t| && 0 <= Node(q, s.on[q], i + 2) < |t|
    requires r in s.on && r != q
    ensures Chained(Cut(t, q, s.on[q], i), r, s.on[r])
  {
    hide Threaded, Shape, NoDup, IsHead;
    var l, m := s.on[q], s.on[r];
    var t' := Cut(t, q, l, i);
    EndKeys(t, s, r);
    forall j | 0 <= j <= |m| + 1
      ensures 0 <= Node(r, m, j) < |t| && t'[Node(r, m, j)] == t[Node(r, m, j)]
    {
      LinkAt(t, s, r, if j == 0 then 0 else j - 1);
      NodesDiffer(s, q, i, r, j);
      NodesDiffer(s, q, i + 2, r, j);
    }
    assert t'[Node(r, m, 0)] == t[r] && t'[Node(r, m, |m| + 1)] == t[r + 1];
    forall j | 0 <= j <= |m|
      ensures Link(t', Node(r, m, j), Node(r, m, j + 1))
    {
      LinkAt(t, s, r, j);
    }
  }

  /** Taking a process out: the table keeps its shape. */
  lemma DropThreaded(t: seq<QEntry>, s: Lists, q: int, i: int)
    requires Threaded(t, s) && q in s.on && 0 <= i < |s.on[q]|
    ensures |t| == NQENT && |s.key| == NPROC && |s.home| == NPROC && 0 <= s.on[q][i] < NPROC
    ensures t[s.on[q][i]].qprev == Node(q, s.on[q], i) && t[s.on[q][i]].qnext == Node(q, s.on[q], i + 2)
    ensures 0 <= Node(q, s.on[q], i) < |t| && 0 <= Node(q, s.on[q], i + 2) < |t|
    ensures Threaded(Cut(t, q, s.on[q], i), DropAt(s, q, i))
  {
    hide Shape, NoDup, IsHead, Chained;
    ShapeSizes(s);
    LinkAt(t, s, q, i);
    LinkAt(t, s, q, i + 1);
    DropShape(s, q, i);
    CutOwn(t, s, q, i);
    forall r | r in s.on && r != q
      ensures Chained(Cut(t, q, s.on[q], i), r, s.on[r])
    {
      CutOther(t, s, q, i, r);
    }
  }

  /** Writing to the entry of a process that is on no list disturbs nothing. */
  lemma OffThreaded(t: seq<QEntry>, s: Lists, p: int, e: QEntry)
    requires Threaded(t, s) && 0 <= p < NPROC && s.home[p] == EMPTY
    ensures |t| == NQENT && |s.key| == NPROC
    ensures Threaded(t[p := e], WithKey(s, p, e.qkey))
  {
    hide Shape, NoDup, IsHead;
    ShapeSizes(s);
    KeyShape(s, p, e.qkey);
    forall r | r in s.on
      ensures Chained(t[p := e], r, s.on[r])
    {
      EndKeys(t, s, r);
      OffNode(s, p, r, 0);
      OffNode(s, p, r, |s.on[r]| + 1);
      forall j | 0 <= j <= |s.on[r]|
        ensures Link(t[p := e], Node(r, s.on[r], j), Node(r, s.on[r], j + 1))
      {
        LinkAt(t, s, r, j);
        OffNode(s, p, r, j);
        OffNode(s, p, r, j + 1);
      }
    }
  }

  /** Changing the key of a process moves no link. */
  lemma KeyThreaded(t: seq<QEntry>, s: Lists, p: int, k: int)
    requires Threaded(t, s) && 0 <= p < NPROC
    ensures |t| == NQENT && |s.key| == NPROC
    ensures Threaded(t[p := t[p].(qkey := k)], WithKey(s, p, k))
  {
    hide Shape, NoDup, IsHead;
    ShapeSizes(s);
    KeyShape(s, p, k);
    forall r | r in s.on
      ensures Chained(t[p := t[p].(qkey := k)], r, s.on[r])
    {
      EndKeys(t, s, r);
      ListNoDup(s, r);
      HeadNotEmpty(r);
      forall j | 0 <= j <= |s.on[r]|
        ensures Link(t[p := t[p].(qkey := k)], Node(r, s.on[r], j), Node(r, s.on[r], j + 1))
      {
        LinkAt(t, s, r, j);
      }
    }
  }

  /** The table after newqueue has made a head and a tail. */
  function Fresh(t: seq<QEntry>, q: int): seq<QEntry>
    requires 0 <= q && q + 1 < |t|
  {
    t[q := QEntry(MAXKEY, q + 1, EMPTY)][q + 1 := QEntry(MINKEY, EMPTY, q)]
  }

  /** A new list disturbs no other. */
  lemma NewThreaded(t: seq<QEntry>, s: Lists, q: int)
    requires Threaded(t, s) && IsHead(q) && q !in s.on
    ensures q + 1 < |t| && Threaded(Fresh(t, q), s.(on := s.on[q := []]))
  {
    hide Shape;
    ShapeSizes(s);
    var t', s' := Fresh(t, q), s.(on := s.on[q := []]);
    NewShape(s, q);
    forall r | r in s'.on
      ensures Chained(t', r, s'.on[r])
    {
      if r == q {
        assert Node(q, s'.on[q], 0) == q && Node(q, s'.on[q], 1) == q + 1;
      } else {
        EndKeys(t, s, r);
        ListNoDup(s, r);
        forall j | 0 <= j <= |s.on[r]|
          ensures Link(t', Node(r, s.on[r], j), Node(r, s.on[r], j + 1))
        {
          LinkAt(t, s, r, j);
          if 0 < j {
            HomeOfIndex(s, r, j - 1);
          }
          if j < |s.on[r]| {
            HomeOfIndex(s, r, j);
          }
        }
      }
    }
  }

  lemma NewShape(s: Lists, q: int)
    requires Shape(s) && IsHead(q) && q !in s.on
    ensures Shape(s.(on := s.on[q := []]))
  {
    hide IsHead;
  }
}
