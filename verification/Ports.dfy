// The port system on its tables: message nodes in one pool, chained through their next fields on
// a free list and on one list per port (system/ptinit.c, ptcreate.c, ptsend.c, ptrecv.c,
// ptclear.c, ptreset.c, ptdelete.c, ptcount.c).

module Ports {

  import opened Common
  import opened PortSpec

  /** A null pointer; nodes are numbered from 0. */
  const NULL := -1

  datatype Node = Node(msg: int, next: int)

  /** struct ptentry; the two semaphores are kept with it, and (not in the source) how often the
      sequence number has changed. */
  datatype Entry = Entry(ssem: Sema, rsem: Sema, state: PortState, max: int, seqno: int, head: int, tail: int,
      epoch: nat)

  // ---- chains of nodes ---------------------------------------------------------------------

  function At(l: seq<int>, k: int): int
    requires 0 <= k
  {
    if k < |l| then l[k] else NULL
  }

  function Last(l: seq<int>): int { if l == [] then NULL else l[|l| - 1] }

  /** Node k of list l points to the next one, the last to nothing. */
  predicate NextOK(t: seq<Node>, l: seq<int>, k: int)
    requires 0 <= k < |l|
  {
    0 <= l[k] < |t| && t[l[k]].next == At(l, k + 1)
  }

  ghost predicate Chain(t: seq<Node>, l: seq<int>)
  {
    forall k :: 0 <= k < |l| ==> NextOK(t, l, k)
  }

  /** List l carries the messages q. */
  ghost predicate Carries(t: seq<Node>, l: seq<int>, q: seq<int>)
  {
    Chain(t, l) && |l| == |q| && forall k :: 0 <= k < |l| ==> 0 <= l[k] < |t| && t[l[k]].msg == q[k]
  }

  /** The table entry stands for port P, whose messages are in the nodes of l. */
  ghost predicate Tied(t: seq<Node>, e: Entry, P: Port, l: seq<int>)
  {
    && e.ssem == P.ssem && e.rsem == P.rsem && e.state == P.state && e.max == P.max && e.seqno == P.seqno
       && e.epoch == P.epoch
    && Carries(t, l, P.queue)
    && (e.state == Alloc ==> e.head == At(l, 0) && e.tail == Last(l))
    && (e.state != Alloc ==> l == [])
  }

  /** Lists number 0 to NPORTS - 1 belong to the ports, number NPORTS is the free list; where says
      on which list each node is.  Every node is on exactly one. */
  ghost predicate Parted(lists: seq<seq<int>>, where: seq<int>)
  {
    && |lists| == NPORTS + 1
    && (forall i, k ::
       0 <= i <= NPORTS && 0 <= k < |lists[i]| ==> 0 <= lists[i][k] < |where| && where[lists[i][k]] == i)
    && (forall i :: 0 <= i <= NPORTS ==> NoDup(lists[i]))
    && (forall n :: 0 <= n < |where| ==> 0 <= where[n] <= NPORTS && n in lists[where[n]])
  }

  /** A port being reset has its pointers cleared already. */
  ghost predicate Emptied(tab: seq<Entry>, f: Frame)
  {
    f.Clearing? && f.keep && 0 <= f.port < |tab| ==> tab[f.port].head == NULL && tab[f.port].tail == NULL
  }

  /** Tables, nodes and lists together stand for the state s. */
  ghost predicate Stands(t: seq<Node>, tab: seq<Entry>, free: int, lists: seq<seq<int>>, where: seq<int>, s: Sys)
  {
    && |tab| == NPORTS == |s.ports| && |where| == |t| == s.pool && Parted(lists, where)
    && Chain(t, lists[NPORTS]) && free == At(lists[NPORTS], 0) && s.nodes == |lists[NPORTS]|
    && (forall i :: 0 <= i < NPORTS ==> Tied(t, tab[i], s.ports[i], lists[i]))
    && forall p :: p in s.frames ==> Emptied(tab, s.frames[p])
  }

  /** The nodes of other lists are not those of list i. */
  lemma Elsewhere(lists: seq<seq<int>>, where: seq<int>, i: int, k: int, j: int, m: int)
    requires Parted(lists, where) && 0 <= i <= NPORTS && 0 <= j <= NPORTS && 0 <= k < |lists[i]| && 0 <= m < |lists[j]|
    requires i != j || k != m
    ensures lists[i][k] != lists[j][m]
  {
  }

  lemma TiedFrame(t: seq<Node>, u: seq<Node>, e: Entry, P: Port, l: seq<int>)
    requires Tied(t, e, P, l) && |u| == |t| && forall k :: 0 <= k < |l| ==> 0 <= l[k] < |t| && u[l[k]] == t[l[k]]
    ensures Tied(u, e, P, l)
  {
    forall k | 0 <= k < |l|
      ensures NextOK(u, l, k) && u[l[k]].msg == P.queue[k]
    {
      assert NextOK(t, l, k);
    }
  }

  // ---- moving nodes ---------------------------------------------------------------------------

  /** The first free node becomes the last of port i. */
  function PushLists(lists: seq<seq<int>>, i: int): seq<seq<int>>
    requires |lists| == NPORTS + 1 && 0 <= i < NPORTS && lists[NPORTS] != []
  {
    lists[i := lists[i] + [lists[NPORTS][0]]][NPORTS := lists[NPORTS][1..]]
  }

  /** The first node of port i becomes the first free one. */
  function PopLists(lists: seq<seq<int>>, i: int): seq<seq<int>>
    requires |lists| == NPORTS + 1 && 0 <= i < NPORTS && lists[i] != []
  {
    lists[i := lists[i][1..]][NPORTS := [lists[i][0]] + lists[NPORTS]]
  }

  /** All nodes of port i go in front of the free ones. */
  function SpliceLists(lists: seq<seq<int>>, i: int): seq<seq<int>>
    requires |lists| == NPORTS + 1 && 0 <= i < NPORTS
  {
    lists[i := []][NPORTS := lists[i] + lists[NPORTS]]
  }

  lemma PushParted(lists: seq<seq<int>>, where: seq<int>, i: int)
    requires Parted(lists, where) && 0 <= i < NPORTS && lists[NPORTS] != []
    ensures 0 <= lists[NPORTS][0] < |where| && Parted(PushLists(lists, i), where[lists[NPORTS][0] := i])
  {
    var n, free := lists[NPORTS][0], lists[NPORTS];
    var lists', where' := PushLists(lists, i), where[n := i];
    assert lists'[i][|lists[i]|] == n;
    forall m | 0 <= m < |where'|
      ensures 0 <= where'[m] <= NPORTS && m in lists'[where'[m]]
    {
      if m != n {
        var k :| 0 <= k < |lists[where[m]]| && lists[where[m]][k] == m;
        assert where[m] == NPORTS ==> lists'[NPORTS][k - 1] == m;
        assert where[m] == i ==> lists'[i][k] == m;
      }
    }
  }

  lemma PopParted(lists: seq<seq<int>>, where: seq<int>, i: int)
    requires Parted(lists, where) && 0 <= i < NPORTS && lists[i] != []
    ensures 0 <= lists[i][0] < |where| && Parted(PopLists(lists, i), where[lists[i][0] := NPORTS])
  {
    hide NoDup;
    var n := lists[i][0];
    var lists', where' := PopLists(lists, i), where[n := NPORTS];
    PopNoDup(lists, where, i);
    assert lists'[NPORTS][0] == n;
    forall j, k | 0 <= j <= NPORTS && 0 <= k < |lists'[j]|
      ensures 0 <= lists'[j][k] < |where'| && where'[lists'[j][k]] == j
    {
      if j == i {
        assert lists'[i][k] == lists[i][k + 1];
        Elsewhere(lists, where, i, k + 1, i, 0);
      } else if j == NPORTS {
        assert k > 0 ==> lists'[NPORTS][k] == lists[NPORTS][k - 1];
      }
    }
    forall m | 0 <= m < |where'|
      ensures 0 <= where'[m] <= NPORTS && m in lists'[where'[m]]
    {
      if m != n {
        var k :| 0 <= k < |lists[where[m]]| && lists[where[m]][k] == m;
        assert where[m] == NPORTS ==> lists'[NPORTS][k + 1] == m;
        assert where[m] == i ==> lists'[i][k - 1] == m;
      }
    }
  }

  lemma PopNoDup(lists: seq<seq<int>>, where: seq<int>, i: int)
    requires Parted(lists, where) && 0 <= i < NPORTS && lists[i] != []
    ensures forall j :: 0 <= j <= NPORTS ==> NoDup(PopLists(lists, i)[j])
  {
    assert lists[i][0] !in lists[NPORTS];
    forall j | 0 <= j <= NPORTS
      ensures NoDup(PopLists(lists, i)[j])
    {
      assert NoDup(lists[j]);
    }
  }

  ghost function Moved(where: seq<int>, i: int): (w: seq<int>)
    ensures |w| == |where| && forall n :: 0 <= n < |w| ==> w[n] == if where[n] == i then NPORTS else where[n]
  {
    seq(|where|, n requires 0 <= n < |where| => if where[n] == i then NPORTS else where[n])
  }

  lemma SpliceParted(lists: seq<seq<int>>, where: seq<int>, i: int)
    requires Parted(lists, where) && 0 <= i < NPORTS
    ensures Parted(SpliceLists(lists, i), Moved(where, i))
  {
    var l, lists', where' := lists[i], SpliceLists(lists, i), Moved(where, i);
    forall m | 0 <= m < |where'|
      ensures 0 <= where'[m] <= NPORTS && m in lists'[where'[m]]
    {
      var k :| 0 <= k < |lists[where[m]]| && lists[where[m]][k] == m;
      assert where[m] == i ==> lists'[NPORTS][k] == m;
      assert where[m] == NPORTS ==> lists'[NPORTS][|l| + k] == m;
    }
  }

  /** A change to port i, to its nodes and to the free list. */
  lemma StandsAfter(t: seq<Node>, tab: seq<Entry>, free: int, lists: seq<seq<int>>, where: seq<int>, s: Sys,
                    t': seq<Node>, e: Entry, free': int, lists': seq<seq<int>>, where': seq<int>, s': Sys, i: int)
    requires Stands(t, tab, free, lists, where, s) && 0 <= i < NPORTS && |t'| == |t| && |s'.ports| == NPORTS
    requires Parted(lists', where') && |where'| == |where| && s'.pool == s.pool
    requires forall j :: 0 <= j < NPORTS && j != i ==> lists'[j] == lists[j]
    requires forall j, k ::
             0 <= j < NPORTS && j != i && 0 <= k < |lists[j]| ==>
               0 <= lists[j][k] < |t| && t'[lists[j][k]] == t[lists[j][k]]
    requires Tied(t', e, s'.ports[i], lists'[i])
    requires Chain(t', lists'[NPORTS]) && free' == At(lists'[NPORTS], 0) && s'.nodes == |lists'[NPORTS]|
    requires s'.ports == s.ports[i := s'.ports[i]]
    requires forall p :: p in s'.frames ==> Emptied(tab[i := e], s'.frames[p])
    ensures Stands(t', tab[i := e], free', lists', where', s')
  {
    hide Chain, Emptied, NoDup;
    forall j | 0 <= j < NPORTS
      ensures Tied(t', tab[i := e][j], s'.ports[j], lists'[j])
    {
      if j != i {
        TiedFrame(t, t', tab[j], s.ports[j], lists[j]);
      }
    }
  }

  /** Nobody is clearing port i. */
  ghost predicate Unclearing(frames: map<int, Frame>, i: int)
  {
    forall p :: p in frames && frames[p].Clearing? ==> frames[p].port != i
  }

  /** The frames after port i has been written to, when it is not being cleared. */
  lemma EmptiedFrames(tab: seq<Entry>, i: int, e: Entry, f: map<int, Frame>)
    requires 0 <= i < |tab| && Unclearing(f, i) && forall p :: p in f ==> Emptied(tab, f[p])
    ensures forall p :: p in f ==> Emptied(tab[i := e], f[p])
  {
    forall p | p in f
      ensures Emptied(tab[i := e], f[p])
    {
      assert Emptied(tab, f[p]);
    }
  }

  /** The first free node carries msg to the end of a port's list: the list afterwards. */
  lemma PushChain(t: seq<Node>, l: seq<int>, q: seq<int>, n: int, msg: int, t': seq<Node>)
    requires Carries(t, l, q) && NoDup(l) && n !in l && 0 <= n < |t| && |t'| == |t|
    requires t'[n] == Node(msg, NULL)
    requires l != [] ==> l[|l| - 1] != n && t'[l[|l| - 1]] == t[l[|l| - 1]].(next := n)
    requires forall k :: 0 <= k < |l| - 1 ==> t'[l[k]] == t[l[k]]
    ensures Carries(t', l + [n], q + [msg])
  {
    var l' := l + [n];
    forall k | 0 <= k < |l'|
      ensures NextOK(t', l', k) && t'[l'[k]].msg == (q + [msg])[k]
    {
      if k < |l| {
        assert NextOK(t, l, k);
      }
    }
  }

  lemma PopChain(t: seq<Node>, l: seq<int>, q: seq<int>, t': seq<Node>)
    requires Carries(t, l, q) && l != [] && |t'| == |t|
             && forall k :: 1 <= k < |l| ==> 0 <= l[k] < |t| && t'[l[k]] == t[l[k]]
    ensures Carries(t', l[1..], q[1..])
  {
    var l' := l[1..];
    forall k | 0 <= k < |l'|
      ensures NextOK(t', l', k) && t'[l'[k]].msg == q[1..][k]
    {
      assert NextOK(t, l, k + 1);
    }
  }

  lemma TailChain(t: seq<Node>, l: seq<int>, t': seq<Node>)
    requires Chain(t, l) && l != [] && |t'| == |t|
             && forall k :: 1 <= k < |l| ==> 0 <= l[k] < |t| && t'[l[k]] == t[l[k]]
    ensures Chain(t', l[1..]) && 0 <= l[0] < |t| && t[l[0]].next == At(l, 1) == At(l[1..], 0)
  {
    var l' := l[1..];
    assert NextOK(t, l, 0);
    forall k | 0 <= k < |l'|
      ensures NextOK(t', l', k)
    {
      assert NextOK(t, l, k + 1);
    }
  }

  lemma ConsChain(t: seq<Node>, l: seq<int>, n: int, t': seq<Node>)
    requires Chain(t, l) && n !in l && 0 <= n < |t| && |t'| == |t| && t'[n].next == At(l, 0)
    requires forall k :: 0 <= k < |l| ==> 0 <= l[k] < |t| && t'[l[k]] == t[l[k]]
    ensures Chain(t', [n] + l)
  {
    var l' := [n] + l;
    forall k | 0 <= k < |l'|
      ensures NextOK(t', l', k)
    {
      if k > 0 {
        assert NextOK(t, l, k - 1);
      }
    }
  }

  /** Two chains become one when the last node of the first is made to point to the second. */
  lemma JoinChain(t: seq<Node>, l: seq<int>, m: seq<int>, t': seq<Node>)
    requires Chain(t, l) && Chain(t, m) && |t'| == |t|
    requires forall k :: 0 <= k < |l| - 1 ==> 0 <= l[k] < |t| && t'[l[k]] == t[l[k]]
    requires forall k :: 0 <= k < |m| ==> 0 <= m[k] < |t| && t'[m[k]] == t[m[k]]
    requires l != [] ==> 0 <= l[|l| - 1] < |t| && t'[l[|l| - 1]].next == At(m, 0)
    ensures Chain(t', l + m) && At(l + m, 0) == if l == [] then At(m, 0) else l[0]
  {
    var l' := l + m;
    forall k | 0 <= k < |l'|
      ensures NextOK(t', l', k)
    {
      if k < |l| {
        assert NextOK(t, l, k);
      } else {
        assert NextOK(t, m, k - |l|);
      }
    }
  }

  /** The ends of a port's list and of the free list. */
  lemma NodeFacts(t: seq<Node>, tab: seq<Entry>, free: int, lists: seq<seq<int>>, where: seq<int>, s: Sys, i: int)
    requires Stands(t, tab, free, lists, where, s) && 0 <= i < NPORTS
    ensures |lists| == NPORTS + 1
    ensures |tab| == NPORTS == |s.ports| && tab[i].state == s.ports[i].state && tab[i].ssem == s.ports[i].ssem
            && tab[i].rsem == s.ports[i].rsem
    ensures tab[i].max == s.ports[i].max && tab[i].seqno == s.ports[i].seqno && tab[i].epoch == s.ports[i].epoch
            && free == At(lists[NPORTS], 0)
    ensures |lists| == NPORTS + 1 && NoDup(lists[i]) && |lists[i]| == |s.ports[i].queue|
    ensures s.nodes > 0 ==>
            lists[NPORTS] != [] && free == lists[NPORTS][0] && 0 <= free < |t| && t[free].next == At(lists[NPORTS], 1)
                && free !in lists[i]
    ensures forall n :: n in lists[i] ==> n !in lists[NPORTS] && 0 <= n < |t|
    ensures tab[i].state == Alloc ==> tab[i].head == At(lists[i], 0) && tab[i].tail == Last(lists[i])
    ensures forall k :: 0 <= k < |lists[i]| ==> 0 <= lists[i][k] < |t| && t[lists[i][k]].next == At(lists[i], k + 1)
    ensures forall k :: 0 <= k < |lists[i]| ==> t[lists[i][k]].msg == s.ports[i].queue[k]
  {
    assert Tied(t, tab[i], s.ports[i], lists[i]);
    if s.nodes > 0 {
      assert NextOK(t, lists[NPORTS], 0);
    }
    forall k | 0 <= k < |lists[i]|
      ensures 0 <= lists[i][k] < |t| && t[lists[i][k]].next == At(lists[i], k + 1)
    {
      assert NextOK(t, lists[i], k);
    }
  }

  /** The nodes and the entry after a message has been put on port i. */
  ghost predicate PushedNodes(t: seq<Node>, e: Entry, n: int, msg: int, t': seq<Node>, e': Entry)
  {
    && 0 <= n < |t|
    && var t1 := t[n := Node(msg, NULL)];
       if e.tail == NULL then t' == t1 && e' == e.(head := n, tail := n)
       else 0 <= e.tail < |t| && t' == t1[e.tail := t1[e.tail].(next := n)] && e' == e.(tail := n)
  }

  lemma PushedOK(t: seq<Node>, tab: seq<Entry>, free: int, lists: seq<seq<int>>, where: seq<int>, s: Sys, i: int,
      msg: int, t': seq<Node>, e: Entry)
    requires Stands(t, tab, free, lists, where, s) && 0 <= i < NPORTS && s.ports[i].state == Alloc && s.nodes > 0
             && Unclearing(s.frames, i)
    requires PushedNodes(t, tab[i], free, msg, t', e)
    ensures lists[NPORTS] != [] && 0 <= free < |where|
    ensures Stands(t', tab[i := e], At(lists[NPORTS], 1), PushLists(lists, i), where[free := i], Pushed(s, i, msg))
  {
    hide Parted, NoDup, Carries, Chain, Emptied;
    NodeFacts(t, tab, free, lists, where, s, i);
    PushParted(lists, where, i);
    EmptiedFrames(tab, i, e, s.frames);
    var l := lists[i];
    PushOthers(t, tab, free, lists, where, s, i, t', e, msg);
    PushChain(t, l, s.ports[i].queue, free, msg, t');
    TailChain(t, lists[NPORTS], t');
    StandsAfter(t, tab, free, lists, where, s, t', e, At(lists[NPORTS], 1), PushLists(lists, i), where[free := i],
        Pushed(s, i, msg), i);
  }

  /** Nodes not on the list of port i, other than the first free one, stay as they are. */
  lemma PushOthers(t: seq<Node>, tab: seq<Entry>, free: int, lists: seq<seq<int>>, where: seq<int>, s: Sys, i: int,
      t': seq<Node>, e: Entry, msg: int)
    requires Stands(t, tab, free, lists, where, s) && 0 <= i < NPORTS && s.ports[i].state == Alloc && s.nodes > 0
    requires PushedNodes(t, tab[i], free, msg, t', e)
    ensures |t'| == |t| && t'[free] == Node(msg, NULL) && Carries(t, lists[i], s.ports[i].queue)
            && Chain(t, lists[NPORTS])
    ensures forall j, k ::
            0 <= j <= NPORTS && j != i && 0 <= k < |lists[j]| && (j == NPORTS ==> k > 0) ==>
              0 <= lists[j][k] < |t| && t'[lists[j][k]] == t[lists[j][k]]
    ensures forall k :: 0 <= k < |lists[i]| - 1 ==> t'[lists[i][k]] == t[lists[i][k]]
    ensures lists[i] != [] ==>
            tab[i].tail == lists[i][|lists[i]| - 1] && t'[tab[i].tail] == t[tab[i].tail].(next := free)
    ensures lists[i] == [] <==> tab[i].tail == NULL
  {
    NodeFacts(t, tab, free, lists, where, s, i);
    var l := lists[i];
    forall j, k | 0 <= j <= NPORTS && j != i && 0 <= k < |lists[j]| && (j == NPORTS ==> k > 0)
      ensures 0 <= lists[j][k] < |t| && t'[lists[j][k]] == t[lists[j][k]]
    {
      Elsewhere(lists, where, j, k, NPORTS, 0);
      if l != [] {
        Elsewhere(lists, where, j, k, i, |l| - 1);
      }
    }
  }

  /** Popping the first message of port i. */
  ghost predicate PoppedNodes(t: seq<Node>, e: Entry, free: int, t': seq<Node>, e': Entry)
  {
    && 0 <= e.head < |t| && t' == t[e.head := t[e.head].(next := free)]
    && e' == if e.head == e.tail then e.(head := NULL, tail := NULL) else e.(head := t[e.head].next)
  }

  lemma PoppedOK(t: seq<Node>, tab: seq<Entry>, free: int, lists: seq<seq<int>>, where: seq<int>, s: Sys, i: int,
      t': seq<Node>, e: Entry)
    requires Stands(t, tab, free, lists, where, s) && 0 <= i < NPORTS && s.ports[i].state == Alloc
             && s.ports[i].queue != [] && Unclearing(s.frames, i)
    requires PoppedNodes(t, tab[i], free, t', e)
    ensures lists[i] != [] && tab[i].head == lists[i][0] && 0 <= lists[i][0] < |where|
    ensures Stands(t', tab[i := e], tab[i].head, PopLists(lists, i), where[lists[i][0] := NPORTS], Popped(s, i))
  {
    hide Parted, NoDup, Chain, Emptied;
    NodeFacts(t, tab, free, lists, where, s, i);
    PopParted(lists, where, i);
    EmptiedFrames(tab, i, e, s.frames);
    PopOthers(t, lists, where, i, t', free);
    PopChain(t, lists[i], s.ports[i].queue, t');
    ConsChain(t, lists[NPORTS], lists[i][0], t');
    PopEnds(lists[i]);
    StandsAfter(t, tab, free, lists, where, s, t', e, tab[i].head, PopLists(lists, i), where[lists[i][0] := NPORTS],
        Popped(s, i), i);
  }

  lemma PopEnds(l: seq<int>)
    requires l != [] && NoDup(l)
    ensures l[0] == Last(l) <==> l[1..] == []
    ensures l[1..] != [] ==> Last(l[1..]) == Last(l)
    ensures At(l[1..], 0) == At(l, 1)
  {
  }

  lemma PopOthers(t: seq<Node>, lists: seq<seq<int>>, where: seq<int>, i: int, t': seq<Node>, free: int)
    requires Parted(lists, where) && |where| == |t| && 0 <= i < NPORTS && lists[i] != [] && 0 <= lists[i][0] < |t|
    requires t' == t[lists[i][0] := t[lists[i][0]].(next := free)]
    ensures forall j, k ::
            0 <= j <= NPORTS && 0 <= k < |lists[j]| && (j == i ==> k > 0) ==>
              0 <= lists[j][k] < |t| && t'[lists[j][k]] == t[lists[j][k]]
  {
    forall j, k | 0 <= j <= NPORTS && 0 <= k < |lists[j]| && (j == i ==> k > 0)
      ensures 0 <= lists[j][k] < |t| && t'[lists[j][k]] == t[lists[j][k]]
    {
      Elsewhere(lists, where, j, k, i, 0);
    }
  }

  /** The nodes of port i put in front of the free ones. */
  ghost predicate SplicedNodes(t: seq<Node>, e: Entry, free: int, t': seq<Node>, free': int)
  {
    if e.head == NULL then t' == t && free' == free
    else 0 <= e.tail < |t| && t' == t[e.tail := t[e.tail].(next := free)] && free' == e.head
  }

  lemma SplicedOK(t: seq<Node>, tab: seq<Entry>, free: int, lists: seq<seq<int>>, where: seq<int>, s: Sys, i: int,
                  t': seq<Node>, free': int, e: Entry, s': Sys)
    requires Stands(t, tab, free, lists, where, s) && 0 <= i < NPORTS && s.ports[i].state == Alloc
             && Unclearing(s.frames, i)
    requires SplicedNodes(t, tab[i], free, t', free')
    requires |s'.ports| == NPORTS && s'.ports == s.ports[i := s'.ports[i]] && s'.pool == s.pool
             && s'.nodes == s.nodes + |s.ports[i].queue|
    requires s'.ports[i].state != Alloc && s'.ports[i].queue == [] && Tied(t', e, s'.ports[i], [])
    requires forall p :: p in s'.frames ==> Emptied(tab[i := e], s'.frames[p])
    ensures Stands(t', tab[i := e], free', SpliceLists(lists, i), Moved(where, i), s')
  {
    hide Parted, NoDup, Carries, Chain, Emptied;
    NodeFacts(t, tab, free, lists, where, s, i);
    SpliceParted(lists, where, i);
    SpliceOthers(t, tab, free, lists, where, s, i, t', free');
    JoinChain(t, lists[i], lists[NPORTS], t');
    MovedSize(where, i);
    StandsAfter(t, tab, free, lists, where, s, t', e, free', SpliceLists(lists, i), Moved(where, i), s', i);
  }

  lemma MovedSize(where: seq<int>, i: int)
    ensures |Moved(where, i)| == |where|
  {
  }

  lemma SpliceOthers(t: seq<Node>, tab: seq<Entry>, free: int, lists: seq<seq<int>>, where: seq<int>, s: Sys, i: int,
      t': seq<Node>, free': int)
    requires Stands(t, tab, free, lists, where, s) && 0 <= i < NPORTS && s.ports[i].state == Alloc
    requires SplicedNodes(t, tab[i], free, t', free')
    ensures |t'| == |t| && Chain(t, lists[i]) && Chain(t, lists[NPORTS])
    ensures forall j, k ::
            0 <= j <= NPORTS && 0 <= k < |lists[j]| && (j == i ==> k < |lists[i]| - 1) ==>
              0 <= lists[j][k] < |t| && t'[lists[j][k]] == t[lists[j][k]]
    ensures lists[i] != [] ==>
            0 <= lists[i][|lists[i]| - 1] < |t| && t'[lists[i][|lists[i]| - 1]].next == At(lists[NPORTS], 0)
    ensures free' == if lists[i] == [] then At(lists[NPORTS], 0) else lists[i][0]
  {
    NodeFacts(t, tab, free, lists, where, s, i);
    var l := lists[i];
    forall j, k | 0 <= j <= NPORTS && 0 <= k < |lists[j]| && (j == i ==> k < |l| - 1)
      ensures 0 <= lists[j][k] < |t| && t'[lists[j][k]] == t[lists[j][k]]
    {
      if l != [] {
        Elsewhere(lists, where, j, k, i, |l| - 1);
      }
    }
  }

  /** A change to the entry of port i and to the frames only. */
  lemma EntryOK(t: seq<Node>, tab: seq<Entry>, free: int, lists: seq<seq<int>>, where: seq<int>, s: Sys, i: int,
      e: Entry, s': Sys)
    requires Stands(t, tab, free, lists, where, s) && 0 <= i < NPORTS
    requires |s'.ports| == NPORTS && s'.ports == s.ports[i := s'.ports[i]] && s'.pool == s.pool && s'.nodes == s.nodes
    requires var P, Q := s.ports[i], s'.ports[i];
             && Q.queue == P.queue && e.ssem == Q.ssem && e.rsem == Q.rsem && e.state == Q.state && e.max == Q.max
                && e.seqno == Q.seqno && e.epoch == Q.epoch
             && (Q.state == Alloc ==> e.head == At(lists[i], 0) && e.tail == Last(lists[i]))
             && (Q.state != Alloc ==> lists[i] == [])
    requires forall p :: p in s'.frames ==> Emptied(tab[i := e], s'.frames[p])
    ensures Stands(t, tab[i := e], free, lists, where, s')
  {
    hide NoDup, Carries, Chain, Emptied;
    ListsInRange(lists, where);
    StandsAfter(t, tab, free, lists, where, s, t, e, free, lists, where, s', i);
  }

  lemma ListsInRange(lists: seq<seq<int>>, where: seq<int>)
    requires Parted(lists, where)
    ensures forall j, k :: 0 <= j <= NPORTS && 0 <= k < |lists[j]| ==> 0 <= lists[j][k] < |where|
  {
  }

  /** Every clearing frame of g is one of f, for the same port and purpose. */
  ghost predicate SameClearers(f: map<int, Frame>, g: map<int, Frame>)
  {
    forall p ::
        p in g && g[p].Clearing? ==> p in f && f[p].Clearing? && f[p].port == g[p].port && f[p].keep == g[p].keep
  }

  lemma EmptiedKeep(tab: seq<Entry>, i: int, e: Entry, f: map<int, Frame>, g: map<int, Frame>)
    requires 0 <= i < |tab| && e.head == tab[i].head && e.tail == tab[i].tail && SameClearers(f, g)
    requires forall p :: p in f ==> Emptied(tab, f[p])
    ensures forall p :: p in g ==> Emptied(tab[i := e], g[p])
  {
    forall p | p in g
      ensures Emptied(tab[i := e], g[p])
    {
      if g[p].Clearing? {
        assert Emptied(tab, f[p]);
      }
    }
  }

  lemma StandsEmptied(t: seq<Node>, tab: seq<Entry>, free: int, lists: seq<seq<int>>, where: seq<int>, s: Sys)
    requires Stands(t, tab, free, lists, where, s)
    ensures forall p :: p in s.frames ==> Emptied(tab, s.frames[p])
  {
  }

  /** The semaphores of port i and the waiting frames change. */
  lemma SemaOK(t: seq<Node>, tab: seq<Entry>, free: int, lists: seq<seq<int>>, where: seq<int>, s: Sys, i: int, c: Sema,
      d: Sema, g: map<int, Frame>)
    requires Stands(t, tab, free, lists, where, s) && 0 <= i < NPORTS && SameClearers(s.frames, g)
    ensures |tab| == |s.ports| == NPORTS
    ensures Stands(t, tab[i := tab[i].(ssem := c, rsem := d)], free, lists, where,
            SetPort(s, i, s.ports[i].(ssem := c, rsem := d)).(frames := g))
  {
    hide Emptied, Parted, Chain;
    NodeFacts(t, tab, free, lists, where, s, i);
    StandsEmptied(t, tab, free, lists, where, s);
    EmptiedKeep(tab, i, tab[i].(ssem := c, rsem := d), s.frames, g);
    EntryOK(t, tab, free, lists, where, s, i, tab[i].(ssem := c, rsem := d),
        SetPort(s, i, s.ports[i].(ssem := c, rsem := d)).(frames := g));
  }

  /** Frames that are not about clearing come and go. */
  lemma FramesOK(t: seq<Node>, tab: seq<Entry>, free: int, lists: seq<seq<int>>, where: seq<int>, s: Sys, g: map<int,
      Frame>)
    requires Stands(t, tab, free, lists, where, s) && SameClearers(s.frames, g)
    ensures Stands(t, tab, free, lists, where, s.(frames := g))
  {
    hide Emptied, Parted, Chain, Tied;
    StandsEmptied(t, tab, free, lists, where, s);
    assert tab == tab[0 := tab[0]];
    EmptiedKeep(tab, 0, tab[0], s.frames, g);
  }

  lemma AllocUnclearing(s: Sys, i: int)
    requires (forall p :: p in s.frames ==> FrameOK(s, p)) && 0 <= i < |s.ports| && s.ports[i].state == Alloc
    ensures Unclearing(s.frames, i)
  {
    forall p | p in s.frames && s.frames[p].Clearing?
      ensures s.frames[p].port != i
    {
      assert FrameOK(s, p);
    }
  }

  // ---- the system ---------------------------------------------------------------------------------

  class System {
    const nodes: array<Node>
    const porttab: array<Entry>
    var ptfree: int
    var ptnextid: int
    /** The saved contexts of the processes inside port calls. */
    var frames: map<int, Frame>
    ghost var lists: seq<seq<int>>
    ghost var where: seq<int>
    /** The state that the tables stand for. */
    ghost var now: Sys

    ghost predicate Valid()
      reads this, nodes, porttab
    {
      Stands(nodes[..], porttab[..], ptfree, lists, where, now) && now.frames == frames && now.nextid == ptnextid
    }

    /** Tables for maxmsgs message nodes; PtInit makes them ready. */
    constructor (maxmsgs: nat)
      requires maxmsgs > 0
      ensures nodes.Length == maxmsgs && porttab.Length == NPORTS && fresh(nodes) && fresh(porttab)
    {
      nodes := new Node[maxmsgs](i => Node(0, NULL));
      porttab := new Entry[NPORTS](i => Entry(Sema(false, 0, []), Sema(false, 0, []), PortState.Free, 0, 0, NULL, NULL,
          0));
    }

    /** ptinit: all ports free, all nodes on one list.  The unused fields of the table are as the
        loader leaves them. */
    method PtInit()
      requires nodes.Length > 0 && porttab.Length == NPORTS
      modifies this, nodes, porttab
      ensures Valid() && now == Start(nodes.Length)
    {
      ClearTable();
      ptnextid := 0;
      ptfree := 0;
      frames := map[];
      LinkNodes();
      lists := seq(NPORTS + 1, i => if i == NPORTS then seq(nodes.Length, k => k) else []);
      where := seq(nodes.Length, k => NPORTS);
      now := Start(nodes.Length);
      FreshStands(nodes[..], porttab[..], lists, where, now);
    }

    method ClearTable()
      requires porttab.Length == NPORTS
      modifies porttab
      ensures forall i ::
              0 <= i < NPORTS ==>
                porttab[i] == Entry(Sema(false, 0, []), Sema(false, 0, []), PortState.Free, 0, 0, NULL, NULL, 0)
    {
      var i := 0;
      while i < NPORTS
        invariant 0 <= i <= NPORTS
        invariant forall j ::
                  0 <= j < i ==>
                    porttab[j] == Entry(Sema(false, 0, []), Sema(false, 0, []), PortState.Free, 0, 0, NULL, NULL, 0)
      {
        porttab[i] := Entry(Sema(false, 0, []), Sema(false, 0, []), PortState.Free, 0, 0, NULL, NULL, 0);
        i := i + 1;
      }
    }

    /** Each node points to the one after it, the last to nothing (system/ptinit.c:37-43). */
    method LinkNodes()
      requires nodes.Length > 0
      modifies nodes
      ensures forall k :: 0 <= k < nodes.Length ==> nodes[k].next == if k + 1 < nodes.Length then k + 1 else NULL
    {
      var curr, next, left := 0, 0, nodes.Length - 1;
      while left > 0
        invariant 0 <= left && curr == next == nodes.Length - 1 - left
        invariant forall k :: 0 <= k < curr ==> nodes[k].next == k + 1
      {
        next := next + 1;
        nodes[curr] := nodes[curr].(next := next);
        curr := next;
        left := left - 1;
      }
      nodes[curr] := nodes[curr].(next := NULL);
    }

    /** A node is taken off the free list and goes to the end of a port's list (system/ptsend.c:42-55). */
    method PushNode(i: int, msg: int)
      requires Valid() && 0 <= i < |now.ports| == NPORTS && now.ports[i].state == Alloc && now.nodes > 0
               && Unclearing(frames, i)
      modifies this`ptfree, this`lists, this`where, this`now, nodes, porttab
      ensures Valid() && now == Pushed(old(now), i, msg)
    {
      hide Stands, NoDup;
      NodeFacts(nodes[..], porttab[..], ptfree, lists, where, now, i);
      ghost var t, tab, l, free := nodes[..], porttab[..], lists[i], lists[NPORTS];
      var msgnode := ptfree;
      ptfree := nodes[msgnode].next;
      nodes[msgnode] := nodes[msgnode].(next := NULL);
      nodes[msgnode] := nodes[msgnode].(msg := msg);
      var tailnode := porttab[i].tail;
      if tailnode == NULL {
        porttab[i] := porttab[i].(head := msgnode, tail := msgnode);
      } else {
        nodes[tailnode] := nodes[tailnode].(next := msgnode);
        porttab[i] := porttab[i].(tail := msgnode);
      }
      PushedOK(t, tab, free[0], lists, where, now, i, msg, nodes[..], porttab[i]);
      assert porttab[..] == tab[i := porttab[i]];
      lists, where, now := PushLists(lists, i), where[free[0] := i], Pushed(now, i, msg);
    }

    /** The first message of a port is taken and its node goes back to the free list
        (system/ptrecv.c:37-44). */
    method PopNode(i: int) returns (msg: int)
      requires Valid() && 0 <= i < |now.ports| == NPORTS && now.ports[i].state == Alloc && now.ports[i].queue != []
               && Unclearing(frames, i)
      modifies this`ptfree, this`lists, this`where, this`now, nodes, porttab
      ensures Valid() && msg == old(now).ports[i].queue[0] && now == Popped(old(now), i)
    {
      hide Stands, NoDup;
      NodeFacts(nodes[..], porttab[..], ptfree, lists, where, now, i);
      ghost var t, tab, l, free := nodes[..], porttab[..], lists[i], ptfree;
      var msgnode := porttab[i].head;
      msg := nodes[msgnode].msg;
      if porttab[i].head == porttab[i].tail {
        porttab[i] := porttab[i].(head := NULL, tail := NULL);
      } else {
        porttab[i] := porttab[i].(head := nodes[msgnode].next);
      }
      nodes[msgnode] := nodes[msgnode].(next := ptfree);
      ptfree := msgnode;
      PoppedOK(t, tab, free, lists, where, now, i, nodes[..], porttab[i]);
      assert porttab[..] == tab[i := porttab[i]];
      lists, where, now := PopLists(lists, i), where[l[0] := NPORTS], Popped(now, i);
    }

    /** signal on the receivers' semaphore. */
    method SignalRecv(i: int)
      requires Valid() && 0 <= i < |now.ports| == NPORTS
      requires var c := now.ports[i].rsem;
               c.count < 0 ==> c.waiting != [] && c.waiting[0] in frames && !frames[c.waiting[0]].Clearing?
      modifies this`frames, this`now, porttab
      ensures Valid() && now == SignalR(old(now), i)
    {
      hide Stands;
      NodeFacts(nodes[..], porttab[..], ptfree, lists, where, now, i);
      ghost var tab, P := porttab[..], now.ports[i];
      var c := porttab[i].rsem;
      if !c.valid {
        return;
      }
      if c.count < 0 {
        SemaOK(nodes[..], tab, ptfree, lists, where, now, i, P.ssem, Signalled(c), Grant(frames, c.waiting[0]));
        porttab[i] := porttab[i].(rsem := c.(count := c.count + 1, waiting := c.waiting[1..]));
        frames := Grant(frames, c.waiting[0]);
      } else {
        SemaOK(nodes[..], tab, ptfree, lists, where, now, i, P.ssem, Signalled(c), frames);
        porttab[i] := porttab[i].(rsem := c.(count := c.count + 1));
      }
      assert porttab[..] == tab[i := porttab[i]];
      now := SignalR(now, i);
    }

    /** signal on the senders' semaphore. */
    method SignalSend(i: int)
      requires Valid() && 0 <= i < |now.ports| == NPORTS
      requires var c := now.ports[i].ssem;
               c.count < 0 ==> c.waiting != [] && c.waiting[0] in frames && !frames[c.waiting[0]].Clearing?
      modifies this`frames, this`now, porttab
      ensures Valid() && now == SignalS(old(now), i)
    {
      hide Stands;
      NodeFacts(nodes[..], porttab[..], ptfree, lists, where, now, i);
      ghost var tab, P := porttab[..], now.ports[i];
      var c := porttab[i].ssem;
      if !c.valid {
        return;
      }
      if c.count < 0 {
        SemaOK(nodes[..], tab, ptfree, lists, where, now, i, Signalled(c), P.rsem, Grant(frames, c.waiting[0]));
        porttab[i] := porttab[i].(ssem := c.(count := c.count + 1, waiting := c.waiting[1..]));
        frames := Grant(frames, c.waiting[0]);
      } else {
        SemaOK(nodes[..], tab, ptfree, lists, where, now, i, Signalled(c), P.rsem, frames);
        porttab[i] := porttab[i].(ssem := c.(count := c.count + 1));
      }
      assert porttab[..] == tab[i := porttab[i]];
      now := SignalS(now, i);
    }

    /** The second half of ptsend: the message is queued and a receiver signalled. */
    method Deliver(i: int, msg: int)
      requires Valid() && Mid(now, i, 1, 0) && 0 <= i < NPORTS && now.ports[i].state == Alloc && now.ports[i].ssem.valid
               && now.nodes > 0
      modifies this`ptfree, this`lists, this`where, this`now, this`frames, nodes, porttab
      ensures Valid() && now == Accepted(old(now), i, msg)
    {
      hide Stands, SignalR, Pushed, PortOK;
      AllocUnclearing(now, i);
      PushMid(now, i, msg);
      PushedFields(now, i, msg);
      SignalRMid(Pushed(now, i, msg), i, 0);
      PushNode(i, msg);
      SignalRecv(i);
    }

    /** The second half of ptrecv: the first message is taken and a sender signalled. */
    method Fetch(i: int) returns (msg: int)
      requires Valid() && Mid(now, i, 0, 1) && 0 <= i < NPORTS && now.ports[i].state == Alloc && now.ports[i].rsem.valid
      modifies this`ptfree, this`lists, this`where, this`now, this`frames, nodes, porttab
      ensures old(now).ports[i].queue != [] && msg == old(now).ports[i].queue[0]
      ensures Valid() && now == Taken(old(now), i)
    {
      hide Stands, SignalS, Popped, PortOK;
      AllocUnclearing(now, i);
      PopMid(now, i);
      PoppedFields(now, i);
      SignalSMid(Popped(now, i), i, 0);
      msg := PopNode(i);
      SignalSend(i);
    }

    predicate BadPortNow(i: int)
      reads this, porttab
    {
      i < 0 || i >= porttab.Length || porttab[i].state != Alloc
    }

    /** wait on a semaphore of port i that has nothing to give. */
    method BlockOn(p: int, i: int, f: Frame)
      requires Valid() && Inv(now) && p !in frames && !BadPort(now, i) && !f.Clearing? && f.port == i && !f.granted
      requires f.seqno == now.ports[i].seqno && f.epoch == now.ports[i].epoch
      requires var c := if f.Sending? then now.ports[i].ssem else now.ports[i].rsem; c.valid && c.count <= 0
      modifies this`now, this`frames, porttab
      ensures Valid() && now == Blocking(old(now), p, i, f) && Inv(now)
    {
      hide Stands, Mid, Inv, Blocking, BlockedEntry;
      BlockMid(now, p, i, f);
      InvSizes(now);
      NodeFacts(nodes[..], porttab[..], ptfree, lists, where, now, i);
      ghost var tab := porttab[..];
      BlockStands(nodes[..], tab, ptfree, lists, where, now, p, i, f);
      porttab[i] := BlockedEntry(porttab[i], p, f);
      frames := frames[p := f];
      assert porttab[..] == tab[i := porttab[i]];
      now := Blocking(now, p, i, f);
    }

    /** ptsend by process p, up to wait, and to the end if there is a slot. */
    method PtSend(p: int, portid: int, msg: int) returns (r: Reply)
      requires Valid() && Inv(now) && p !in frames
      requires !BadPort(now, portid) && now.ports[portid].ssem.valid && now.ports[portid].ssem.count > 0 ==>
               now.nodes > 0
      modifies this`ptfree, this`lists, this`where, this`now, this`frames, nodes, porttab
      ensures Valid() && now == SendBegun(old(now), p, portid, msg)
      ensures r == if BadPort(old(now), portid) || !old(now).ports[portid].ssem.valid then Done(SYSERR)
                   else if old(now).ports[portid].ssem.count > 0 then Done(OK) else Blocked
    {
      hide Stands, Accepted, Mid, Inv, Blocking;
      BadFacts(portid);
      if BadPortNow(portid) {
        return Done(SYSERR);
      }
      NodeFacts(nodes[..], porttab[..], ptfree, lists, where, now, portid);
      ghost var tab, P := porttab[..], now.ports[portid];
      var seqno := porttab[portid].seqno;
      var c := porttab[portid].ssem;
      if !c.valid {
        return Done(SYSERR);
      }
      if c.count - 1 < 0 {
        BlockOn(p, portid, Sending(portid, msg, seqno, porttab[portid].epoch, false));
        return Blocked;
      }
      ClaimMid(now, portid);
      SemaOK(nodes[..], tab, ptfree, lists, where, now, portid, Claimed(c), P.rsem, frames);
      porttab[portid] := porttab[portid].(ssem := c.(count := c.count - 1));
      assert porttab[..] == tab[portid := porttab[portid]];
      now := SetPort(now, portid, P.(ssem := Claimed(c)));
      Deliver(portid, msg);
      return Done(OK);
    }

    /** ptsend by process p, after it was blocked and has been released. */
    method PtSendRest(p: int) returns (r: int)
      requires Valid() && Inv(now) && p in frames && frames[p].Sending? && frames[p].granted
      requires (FrameFacts(now, p); Timely(now, p) && (Current(now, p) ==> now.nodes > 0))
      modifies this`ptfree, this`lists, this`where, this`now, this`frames, nodes, porttab
      ensures Valid() && now == SendResumed(old(now), p)
      ensures (FrameFacts(old(now), p); r == if Current(old(now), p) then OK else SYSERR)
    {
      hide Stands, Accepted, Mid, Inv;
      FrameFacts(now, p);
      CheckTells(now, p);
      LeftMid(now, p);
      var i, msg, seqno := frames[p].port, frames[p].msg, frames[p].seqno;
      NodeFacts(nodes[..], porttab[..], ptfree, lists, where, now, i);
      FramesOK(nodes[..], porttab[..], ptfree, lists, where, now, frames - {p});
      ghost var s := now;
      frames := frames - {p};
      now := Left(now, p);
      if porttab[i].state != Alloc || porttab[i].seqno != seqno {
        return SYSERR;
      }
      SlotThere(s, p);
      Deliver(i, msg);
      return OK;
    }

    /** ptrecv by process p, up to wait, and to the end if there is a message. */
    method PtRecv(p: int, portid: int) returns (r: Reply)
      requires Valid() && Inv(now) && p !in frames
      modifies this`ptfree, this`lists, this`where, this`now, this`frames, nodes, porttab
      ensures Valid() && now == RecvBegun(old(now), p, portid)
      ensures BadPort(old(now), portid) || !old(now).ports[portid].rsem.valid ==> r == Done(SYSERR)
      ensures !BadPort(old(now), portid) && old(now).ports[portid].rsem.valid ==>
        if old(now).ports[portid].rsem.count > 0 then old(now).ports[portid].queue != []
           && r == Done(old(now).ports[portid].queue[0]) else r == Blocked
    {
      hide Stands, Taken, Mid, Inv, Blocking;
      BadFacts(portid);
      if BadPortNow(portid) {
        return Done(SYSERR);
      }
      NodeFacts(nodes[..], porttab[..], ptfree, lists, where, now, portid);
      ghost var tab, P := porttab[..], now.ports[portid];
      var seqno := porttab[portid].seqno;
      var c := porttab[portid].rsem;
      if !c.valid {
        return Done(SYSERR);
      }
      if c.count - 1 < 0 {
        BlockOn(p, portid, Receiving(portid, seqno, porttab[portid].epoch, false));
        return Blocked;
      }
      ClaimRMid(now, portid);
      SemaOK(nodes[..], tab, ptfree, lists, where, now, portid, P.ssem, Claimed(c), frames);
      porttab[portid] := porttab[portid].(rsem := c.(count := c.count - 1));
      assert porttab[..] == tab[portid := porttab[portid]];
      now := SetPort(now, portid, P.(rsem := Claimed(c)));
      var msg := Fetch(portid);
      return Done(msg);
    }

    /** ptrecv by process p, after it was blocked and has been released: whoever passes the check
        gets the first message, all others SYSERR. */
    method PtRecvRest(p: int) returns (r: int)
      requires Valid() && Inv(now) && p in frames && frames[p].Receiving? && frames[p].granted
      requires (FrameFacts(now, p); Timely(now, p))
      modifies this`ptfree, this`lists, this`where, this`now, this`frames, nodes, porttab
      ensures Valid() && now == RecvResumed(old(now), p)
      ensures (FrameFacts(old(now), p);
               if Current(old(now), p)
                  then var q := old(now).ports[old(frames)[p].port].queue; q != [] && r == q[0] else r == SYSERR)
    {
      hide Stands, Taken, Mid, Inv;
      FrameFacts(now, p);
      CheckTells(now, p);
      LeftMid(now, p);
      var i, seqno := frames[p].port, frames[p].seqno;
      NodeFacts(nodes[..], porttab[..], ptfree, lists, where, now, i);
      FramesOK(nodes[..], porttab[..], ptfree, lists, where, now, frames - {p});
      ghost var s := now;
      frames := frames - {p};
      now := Left(now, p);
      if porttab[i].state != Alloc || porttab[i].seqno != seqno {
        return SYSERR;
      }
      MessageThere(s, p);
      r := Fetch(i);
    }

    /** What a caller finds in the port table. */
    lemma BadFacts(i: int)
      requires Valid()
      ensures porttab.Length == NPORTS == |now.ports| && (BadPortNow(i) <==> BadPort(now, i)) && now.frames == frames
              && now.nextid == ptnextid
      ensures ptfree == At(lists[NPORTS], 0) && now.nodes == |lists[NPORTS]|
    {
      if 0 <= i < NPORTS {
        NodeFacts(nodes[..], porttab[..], ptfree, lists, where, now, i);
      }
    }

    // ---- clearing -------------------------------------------------------------------------------

    /** The walk of _ptclear: every message of a port, in order (system/ptclear.c:24-32). */
    method Dispose(i: int) returns (disposed: seq<int>)
      requires Valid() && 0 <= i < |now.ports| == NPORTS && now.ports[i].state == Alloc
      ensures disposed == now.ports[i].queue
    {
      hide Stands;
      NodeFacts(nodes[..], porttab[..], ptfree, lists, where, now, i);
      disposed := [];
      var walk := porttab[i].head;
      while walk != NULL
        invariant |disposed| <= |lists[i]| && walk == At(lists[i], |disposed|)
                  && disposed == now.ports[i].queue[..|disposed|]
        decreases |lists[i]| - |disposed|
      {
        disposed := disposed + [nodes[walk].msg];
        walk := nodes[walk].next;
      }
    }

    /** The whole list of a port goes in front of the free list (system/ptclear.c:36-37). */
    method SpliceNodes(i: int)
      requires 0 <= i < porttab.Length && (porttab[i].head != NULL ==> 0 <= porttab[i].tail < nodes.Length)
      modifies this`ptfree, nodes
      ensures SplicedNodes(old(nodes[..]), porttab[i], old(ptfree), nodes[..], ptfree)
    {
      if porttab[i].head != NULL {
        nodes[porttab[i].tail] := nodes[porttab[i].tail].(next := ptfree);
        ptfree := porttab[i].head;
      }
    }

    /** _ptclear up to its first possible switch. */
    method ClearFirst(p: int, i: int, keep: bool) returns (disposed: seq<int>)
      requires Valid() && Inv(now) && p !in frames && 0 <= i < |now.ports| == NPORTS && now.ports[i].state == Alloc
      modifies this`ptfree, this`lists, this`where, this`now, this`frames, nodes, porttab
      ensures Valid() && now == ClearBegun(old(now), p, i, keep) && disposed == old(now).ports[i].queue
    {
      hide Stands, Mid, Inv, WakeAll, ClearStart, SpliceLists, NoDup, SplicedNodes;
      AllocFrames(now, i);
      NodeFacts(nodes[..], porttab[..], ptfree, lists, where, now, i);
      ghost var t, tab, free, s := nodes[..], porttab[..], ptfree, now;
      disposed := Dispose(i);
      SpliceNodes(i);
      var e := porttab[i];
      var waiting := e.ssem.waiting;
      if keep {
        e := e.(tail := NULL, head := NULL);
      }
      e := e.(state := Limbo, seqno := (e.seqno + 1) % WORD, epoch := e.epoch + 1);
      e := e.(ssem := if !e.ssem.valid then e.ssem else if keep then Sema(true, e.max, []) else Sema(false, 0, []));
      porttab[i] := e;
      frames := WakeAll(frames, waiting)[p := Clearing(i, keep, false)];
      ClearedOK(t, tab, free, lists, where, s, i, p, keep, nodes[..], ptfree, e);
      assert porttab[..] == tab[i := e];
      lists, where, now := SpliceLists(lists, i), Moved(where, i), ClearStart(now, p, i, keep);
    }

    /** ptreset, up to the first possible switch; the rest is ClearSecond and ClearThird. */
    method PtReset(p: int, portid: int) returns (r: Reply, disposed: seq<int>)
      requires Valid() && Inv(now) && p !in frames
      modifies this`ptfree, this`lists, this`where, this`now, this`frames, nodes, porttab
      ensures Valid() && r == if BadPort(old(now), portid) then Done(SYSERR) else Blocked
      ensures now == if BadPort(old(now), portid) then old(now) else ClearBegun(old(now), p, portid, true)
      ensures disposed == if BadPort(old(now), portid) then [] else old(now).ports[portid].queue
    {
      hide Stands, Mid, Inv;
      BadFacts(portid);
      if BadPortNow(portid) {
        return Done(SYSERR), [];
      }
      disposed := ClearFirst(p, portid, true);
      return Blocked, disposed;
    }

    /** ptdelete, up to the first possible switch. */
    method PtDelete(p: int, portid: int) returns (r: Reply, disposed: seq<int>)
      requires Valid() && Inv(now) && p !in frames
      modifies this`ptfree, this`lists, this`where, this`now, this`frames, nodes, porttab
      ensures Valid() && r == if BadPort(old(now), portid) then Done(SYSERR) else Blocked
      ensures now == if BadPort(old(now), portid) then old(now) else ClearBegun(old(now), p, portid, false)
      ensures disposed == if BadPort(old(now), portid) then [] else old(now).ports[portid].queue
    {
      hide Stands, Mid, Inv;
      BadFacts(portid);
      if BadPortNow(portid) {
        return Done(SYSERR), [];
      }
      disposed := ClearFirst(p, portid, false);
      return Blocked, disposed;
    }

    /** The receivers' semaphore is reset or deleted. */
    method ClearSecond(p: int)
      requires Valid() && Inv(now) && p in frames && frames[p].Clearing? && !frames[p].half
      modifies this`now, this`frames, porttab
      ensures Valid() && now == ClearHalved(old(now), p)
    {
      hide Stands, Mid, Inv, WakeAll;
      InvSizes(now);
      ClearHalvedInv(now, p);
      var f := frames[p];
      NodeFacts(nodes[..], porttab[..], ptfree, lists, where, now, f.port);
      ghost var tab, P := porttab[..], now.ports[f.port];
      var e := porttab[f.port];
      var c := if !e.rsem.valid then e.rsem else if f.keep then Sema(true, 0, []) else Sema(false, 0, []);
      WokenClearers(frames, e.rsem.waiting, p, f);
      SemaOK(nodes[..], tab, ptfree, lists, where, now, f.port, P.ssem, c,
          WakeAll(frames, e.rsem.waiting)[p := f.(half := true)]);
      porttab[f.port] := e.(rsem := c);
      frames := WakeAll(frames, e.rsem.waiting)[p := f.(half := true)];
      assert porttab[..] == tab[f.port := porttab[f.port]];
      now := ClearMiddle(now, p);
    }

    /** The port gets its new state. */
    method ClearThird(p: int)
      requires Valid() && Inv(now) && p in frames && frames[p].Clearing? && frames[p].half
      modifies this`now, this`frames, this`ptnextid, porttab
      ensures Valid() && now == ClearEnded(old(now), p)
    {
      hide Stands, Mid, Inv;
      InvSizes(now);
      ClearEndedInv(now, p);
      var f := frames[p];
      NodeFacts(nodes[..], porttab[..], ptfree, lists, where, now, f.port);
      ghost var tab := porttab[..];
      EndedOK(nodes[..], tab, ptfree, lists, where, now, p);
      porttab[f.port] := porttab[f.port].(state := if f.keep then Alloc else PortState.Free);
      if !f.keep {
        ptnextid := f.port;
      }
      frames := frames - {p};
      assert porttab[..] == tab[f.port := porttab[f.port]];
      now := ClearFinish(now, p);
    }

    // ---- creating and counting -------------------------------------------------------------------

    /** ptcreate; the flags say whether the two semcreate calls find a semaphore. */
    method PtCreate(count: int, sOk: bool, rOk: bool) returns (r: int)
      requires Valid() && Inv(now)
      modifies this`now, this`ptnextid, porttab
      ensures Valid() && now == Created(old(now), count, sOk, rOk)
      ensures r == if count < 0 then SYSERR else FindPort(old(now).ports, old(now).nextid, NPORTS).0
    {
      hide Stands, Mid, Inv, NewPort, At, Last;
      BadFacts(0);
      InvSizes(now);
      if count < 0 {
        return SYSERR;
      }
      var i := 0;
      while i < NPORTS
        invariant 0 <= i <= NPORTS && Valid() && Inv(now) && now == old(now).(nextid := ptnextid)
                  && 0 <= ptnextid < NPORTS
        invariant porttab[..] == old(porttab[..])
        invariant FindPort(now.ports, ptnextid, NPORTS - i) == FindPort(old(now).ports, old(now).nextid, NPORTS)
      {
        var ptnum := ptnextid;
        ptnextid := ptnextid + 1;
        if ptnextid >= NPORTS {
          ptnextid := 0;
        }
        NextidInv(now, ptnextid);
        NextidOK(nodes[..], porttab[..], ptfree, lists, where, now, ptnextid);
        NodeFacts(nodes[..], porttab[..], ptfree, lists, where, now, ptnum);
        now := now.(nextid := ptnextid);
        if porttab[ptnum].state == PortState.Free {
          AllocPort(ptnum, count, sOk, rOk);
          return ptnum;
        }
        i := i + 1;
      }
      return -1;
    }

    /** A free entry becomes an allocated port (system/ptcreate.c:33-39). */
    method AllocPort(i: int, count: nat, sOk: bool, rOk: bool)
      requires Valid() && Inv(now) && 0 <= i < |now.ports| == NPORTS && now.ports[i].state == PortState.Free
      modifies this`now, porttab
      ensures Valid() && now == SetPort(old(now), i, NewPort(old(now).ports[i], count, sOk, rOk)) && Inv(now)
    {
      hide Stands, Mid, Inv, NewPort;
      NodeFacts(nodes[..], porttab[..], ptfree, lists, where, now, i);
      ghost var tab := porttab[..];
      var e := porttab[i];
      e := Entry(Sema(sOk, if sOk then count else 0, []), Sema(rOk, 0, []), Alloc, count % 0x1_0000,
          (e.seqno + 1) % WORD, NULL, NULL, e.epoch + 1);
      CreatedInv(now, i, count, sOk, rOk);
      NewOK(nodes[..], tab, ptfree, lists, where, now, i, e, count, sOk, rOk, now.nextid);
      porttab[i] := e;
      assert porttab[..] == tab[i := e];
      now := SetPort(now, i, NewPort(now.ports[i], count, sOk, rOk));
    }

    /** ptcount: messages and blocked senders, or minus the blocked receivers. */
    method PtCount(portid: int) returns (r: int)
      requires Valid() && Inv(now)
      ensures r == Count(now, portid)
    {
      hide Stands, Mid, Inv;
      BadFacts(portid);
      if BadPortNow(portid) {
        return SYSERR;
      }
      NodeFacts(nodes[..], porttab[..], ptfree, lists, where, now, portid);
      var count := if porttab[portid].rsem.valid then porttab[portid].rsem.count else SYSERR;
      if count >= 0 {
        var sndcnt := if porttab[portid].ssem.valid then porttab[portid].ssem.count else SYSERR;
        if sndcnt < 0 {
          count := count + -sndcnt;
        }
      }
      return count;
    }
  }

  lemma PushedFields(s: Sys, i: int, msg: int)
    requires 0 <= i < |s.ports|
    ensures |Pushed(s, i, msg).ports| == |s.ports| && Pushed(s, i, msg).ports[i].state == s.ports[i].state
            && Pushed(s, i, msg).frames == s.frames
  {
  }

  lemma PoppedFields(s: Sys, i: int)
    requires 0 <= i < |s.ports| && s.ports[i].queue != []
    ensures |Popped(s, i).ports| == |s.ports| && Popped(s, i).ports[i].state == s.ports[i].state
            && Popped(s, i).frames == s.frames
  {
  }

  lemma InvSizes(s: Sys)
    requires Inv(s)
    ensures |s.ports| == NPORTS && 0 <= s.nextid < NPORTS
  {
  }

  lemma AllocFrames(s: Sys, i: int)
    requires Inv(s) && 0 <= i < |s.ports| && s.ports[i].state == Alloc
    ensures Unclearing(s.frames, i)
  {
    hide PortOK;
    AllocUnclearing(s, i);
  }

  lemma WokenClearers(f: map<int, Frame>, w: seq<int>, p: int, v: Frame)
    requires p in f && f[p] == v && v.Clearing?
    ensures SameClearers(f, WakeAll(f, w)[p := v.(half := true)])
  {
  }

  lemma ClearedOK(t: seq<Node>, tab: seq<Entry>, free: int, lists: seq<seq<int>>, where: seq<int>, s: Sys, i: int,
      p: int, keep: bool,
                  t': seq<Node>, free': int, e: Entry)
    requires Stands(t, tab, free, lists, where, s) && 0 <= i < NPORTS && s.ports[i].state == Alloc
             && Unclearing(s.frames, i)
    requires SplicedNodes(t, tab[i], free, t', free')
    requires var P := ClearedPort(s.ports[i], keep);
             && e.ssem == P.ssem && e.rsem == P.rsem && e.state == P.state && e.max == P.max && e.seqno == P.seqno
                && e.epoch == P.epoch
             && (keep ==> e.head == NULL && e.tail == NULL)
    ensures Stands(t', tab[i := e], free', SpliceLists(lists, i), Moved(where, i), ClearStart(s, p, i, keep))
    ensures ClearStart(s, p, i, keep).frames
            == WakeAll(s.frames, s.ports[i].ssem.waiting)[p := Clearing(i, keep, false)]
    ensures ClearStart(s, p, i, keep).nextid == s.nextid
  {
    hide Parted, NoDup, Chain, Moved, Emptied;
    StandsEmptied(t, tab, free, lists, where, s);
    EmptiedFrames(tab, i, e, s.frames);
    ClearedFrames(tab[i := e], s.frames, s.ports[i].ssem.waiting, p, Clearing(i, keep, false));
    assert Carries(t', [], []) by { CarriesNone(t'); }
    SplicedOK(t, tab, free, lists, where, s, i, t', free', e, ClearStart(s, p, i, keep));
  }

  lemma CarriesNone(t: seq<Node>)
    ensures Carries(t, [], [])
  {
  }

  ghost predicate AllEmptied(tab: seq<Entry>, f: map<int, Frame>)
  {
    forall p :: p in f ==> Emptied(tab, f[p])
  }

  lemma ClearedFrames(tab: seq<Entry>, f: map<int, Frame>, w: seq<int>, p: int, v: Frame)
    requires AllEmptied(tab, f) && Emptied(tab, v)
    ensures AllEmptied(tab, WakeAll(f, w)[p := v])
  {
    var g := WakeAll(f, w)[p := v];
    forall x | x in g
      ensures Emptied(tab, g[x])
    {
      if x != p {
        assert Emptied(tab, f[x]);
      }
    }
  }

  lemma EndedOK(t: seq<Node>, tab: seq<Entry>, free: int, lists: seq<seq<int>>, where: seq<int>, s: Sys, p: int)
    requires Stands(t, tab, free, lists, where, s) && Inv(s) && p in s.frames && s.frames[p].Clearing?
             && 0 <= s.frames[p].port < |s.ports| == |tab|
    ensures var f := s.frames[p];
            Stands(t, tab[f.port := tab[f.port].(state := if f.keep then Alloc else PortState.Free)], free, lists,
                where, ClearFinish(s, p))
  {
    hide Parted, NoDup, Chain, PortOK;
    var f := s.frames[p];
    var i := f.port;
    assert FrameOK(s, p);
    StandsEmptied(t, tab, free, lists, where, s);
    var e := tab[i].(state := if f.keep then Alloc else PortState.Free);
    EmptiedKeep(tab, i, e, s.frames, s.frames - {p});
    assert Emptied(tab, f);
    EntryOK(t, tab, free, lists, where, s, i, e, ClearFinish(s, p));
  }

  lemma NewOK(t: seq<Node>, tab: seq<Entry>, free: int, lists: seq<seq<int>>, where: seq<int>, s: Sys, i: int, e: Entry,
      count: nat, sOk: bool, rOk: bool, next: int)
    requires Stands(t, tab, free, lists, where, s) && Inv(s) && 0 <= i < NPORTS && s.ports[i].state == PortState.Free
    requires e == Entry(Sema(sOk, if sOk then count else 0, []), Sema(rOk, 0, []), Alloc, count % 0x1_0000,
             (tab[i].seqno + 1) % WORD, NULL, NULL, tab[i].epoch + 1)
    ensures Stands(t, tab[i := e], free, lists, where,
            SetPort(s, i, NewPort(s.ports[i], count, sOk, rOk)).(nextid := next))
  {
    hide Parted, NoDup, Chain, Emptied;
    NodeFacts(t, tab, free, lists, where, s, i);
    StandsEmptied(t, tab, free, lists, where, s);
    FreeUnclearing(s, i);
    EmptiedFrames(tab, i, e, s.frames);
    assert PortOK(s, i, 0, 0) by { PortFrom(s, i); }
    var s' := SetPort(s, i, NewPort(s.ports[i], count, sOk, rOk)).(nextid := next);
    EntryOK(t, tab, free, lists, where, s, i, e, s');
  }

  lemma FreeUnclearing(s: Sys, i: int)
    requires Inv(s) && 0 <= i < NPORTS && s.ports[i].state == PortState.Free
    ensures Unclearing(s.frames, i)
  {
    hide PortOK;
    forall p | p in s.frames && s.frames[p].Clearing?
      ensures s.frames[p].port != i
    {
      assert FrameOK(s, p);
    }
  }

  lemma NextidOK(t: seq<Node>, tab: seq<Entry>, free: int, lists: seq<seq<int>>, where: seq<int>, s: Sys, next: int)
    requires Stands(t, tab, free, lists, where, s)
    ensures Stands(t, tab, free, lists, where, s.(nextid := next))
  {
    hide Parted, Chain, Tied, Emptied;
  }

  function BlockedEntry(e: Entry, p: int, f: Frame): Entry
  {
    if f.Sending? then e.(ssem := Joined(e.ssem, p))
    else e.(rsem := Joined(e.rsem, p))
  }

  lemma BlockStands(t: seq<Node>, tab: seq<Entry>, free: int, lists: seq<seq<int>>, where: seq<int>, s: Sys, p: int,
      i: int, f: Frame)
    requires Stands(t, tab, free, lists, where, s) && 0 <= i < NPORTS && p !in s.frames && !f.Clearing?
    ensures |tab| == |s.ports| == NPORTS
    ensures Stands(t, tab[i := BlockedEntry(tab[i], p, f)], free, lists, where, Blocking(s, p, i, f))
    ensures Blocking(s, p, i, f).frames == s.frames[p := f] && Blocking(s, p, i, f).nextid == s.nextid
  {
    hide Stands;
    NodeFacts(t, tab, free, lists, where, s, i);
    var e := BlockedEntry(tab[i], p, f);
    SemaOK(t, tab, free, lists, where, s, i, e.ssem, e.rsem, s.frames[p := f]);
  }

  lemma FreshStands(t: seq<Node>, tab: seq<Entry>, lists: seq<seq<int>>, where: seq<int>, s: Sys)
    requires |tab| == NPORTS && |lists| == NPORTS + 1 && |where| == |t| > 0 && s == Start(|t|)
    requires forall i ::
             0 <= i < NPORTS ==>
               lists[i] == [] && tab[i]
                   == Entry(Sema(false, 0, []), Sema(false, 0, []), PortState.Free, 0, 0, NULL, NULL, 0)
    requires |lists[NPORTS]| == |t| && forall k :: 0 <= k < |t| ==> lists[NPORTS][k] == k && where[k] == NPORTS
    requires forall k :: 0 <= k < |t| ==> t[k].next == if k + 1 < |t| then k + 1 else NULL
    ensures Stands(t, tab, 0, lists, where, s)
  {
    forall i | 0 <= i < NPORTS
      ensures Tied(t, tab[i], s.ports[i], lists[i])
    {
    }
    forall k | 0 <= k < |t|
      ensures NextOK(t, lists[NPORTS], k)
    {
    }
  }
}
