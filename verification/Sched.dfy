// The kernel's state and what each call does to it, on values: process table, semaphore table,
// process lists, current process, deferral (include/process.h, include/semaphore.h,
// include/resched.h and the calls in system/*.c named at each function).

module Sched {

  import opened Common
  import opened Queues
  import opened Delta

  datatype PState = Free | Curr | Ready | Recv | Sleep | Susp | Wait | RecTim

  /** Where a process left its own code: in the second half of receive or recvtime, or outside. */
  datatype Place = Outside | InReceive | InRecvTime

  datatype Proc = Proc(state: PState, prio: int, sem: int, parent: int, msg: int, hasmsg: bool)

  datatype Sem = Sem(used: bool, count: int, queue: int)

  datatype Sys = Sys(procs: seq<Proc>, sems: seq<Sem>, lists: Lists, at: seq<Place>, curr: int,
                     ndefers: int, attempt: bool, nextpid: int, nextsem: int, readylist: int, sleepq: int)

  const NULLPROC := 0

  // ---- well-formed states -----------------------------------------------------------------

  /** The tables have their sizes; ready list, sleep queue and semaphore queues are different lists. */
  ghost predicate Sound(s: Sys)
  {
    && |s.procs| == NPROC && |s.at| == NPROC && |s.sems| == NSEM
    && Shape(s.lists)
    && s.readylist in s.lists.on && s.sleepq in s.lists.on && s.readylist != s.sleepq
    && (forall i ::
       0 <= i < NSEM ==> s.sems[i].queue in s.lists.on && s.sems[i].queue != s.readylist && s.sems[i].queue != s.sleepq)
    && (forall i, j :: 0 <= i < j < NSEM ==> s.sems[i].queue != s.sems[j].queue)
    && 0 <= s.curr < NPROC && 0 <= s.ndefers && 0 <= s.nextpid <= NPROC && 0 <= s.nextsem < NSEM
  }

  /** The state of a process decides which list it is on. */
  ghost predicate HomeOK(s: Sys, p: int)
    requires Sound(s) && 0 <= p < NPROC
  {
    match s.procs[p].state
    case Ready => s.lists.home[p] == s.readylist
    case Wait => 0 <= s.procs[p].sem < NSEM && s.lists.home[p] == s.sems[s.procs[p].sem].queue
    case Sleep => s.lists.home[p] == s.sleepq
    case RecTim => s.lists.home[p] == s.sleepq
    case _ => s.lists.home[p] == EMPTY
  }

  /** Descending keys. */
  ghost predicate Descending(l: seq<int>, key: seq<int>)
  {
    forall i, j :: 0 <= i < j < |l| && 0 <= l[i] < |key| && 0 <= l[j] < |key| ==> key[l[i]] >= key[l[j]]
  }

  ghost predicate ReadyOK(s: Sys)
    requires Sound(s)
  {
    && Descending(s.lists.on[s.readylist], s.lists.key)
    && forall p :: 0 <= p < NPROC && s.lists.home[p] == s.readylist ==> s.lists.key[p] == s.procs[p].prio
  }

  /** Priorities are 16-bit, positive except for the null process, which is current or ready. */
  ghost predicate PrioOK(s: Sys)
    requires Sound(s)
  {
    && (forall p :: 0 <= p < NPROC && s.procs[p].state != Free ==> 0 <= s.procs[p].prio < 0x8000)
    && (forall p :: 0 < p < NPROC && s.procs[p].state != Free ==> s.procs[p].prio > 0)
    && s.procs[NULLPROC].state in {Curr, Ready} && s.procs[NULLPROC].prio == 0
  }

  ghost predicate OneCurr(s: Sys)
    requires Sound(s)
  {
    forall p :: 0 <= p < NPROC && s.procs[p].state == Curr ==> p == s.curr
  }

  /** All but process p (or all, for p == EMPTY) are on the list their state names; p is on none. */
  ghost predicate LooseBut(s: Sys, p: int)
  {
    && Sound(s) && OneCurr(s) && PrioOK(s) && ReadyOK(s)
    && (forall x :: 0 <= x < NPROC && x != p ==> HomeOK(s, x))
    && (0 <= p < NPROC ==> s.lists.home[p] == EMPTY)
  }

  ghost predicate Core(s: Sys)
  {
    LooseBut(s, EMPTY) && s.procs[s.curr].state == Curr
  }

  // ---- the list primitives ------------------------------------------------------------------

  /** insert: the place of the first smaller key (system/insert.c:22-25). */
  ghost function InsertPos(l: seq<int>, key: seq<int>, k: int, i: nat): (r: nat)
    requires i <= |l| && Keyed(l, key)
    ensures i <= r <= |l|
    ensures forall j :: i <= j < r ==> key[l[j]] >= k
    ensures r < |l| ==> key[l[r]] < k
    decreases |l| - i
  {
    if i < |l| && key[l[i]] >= k then InsertPos(l, key, k, i + 1) else i
  }

  function IndexOf(l: seq<int>, p: int): (i: nat)
    requires p in l
    ensures i < |l| && l[i] == p
  {
    if l[0] == p then 0 else 1 + IndexOf(l[1..], p)
  }

  lemma InRange(s: Sys, q: int)
    requires Sound(s) && q in s.lists.on
    ensures |s.lists.key| == NPROC && |s.lists.home| == NPROC
    ensures Keyed(s.lists.on[q], s.lists.key)
  {
    forall i | 0 <= i < |s.lists.on[q]|
      ensures 0 <= s.lists.on[q][i] < NPROC
    {
      HomeOfIndex(s.lists, q, i);
    }
  }

  ghost function SetProc(s: Sys, p: int, pr: Proc): Sys
    requires 0 <= p < |s.procs|
  {
    s.(procs := s.procs[p := pr])
  }

  ghost function SetState(s: Sys, p: int, st: PState): Sys
    requires 0 <= p < |s.procs|
  {
    SetProc(s, p, s.procs[p].(state := st))
  }

  ghost function SetCount(s: Sys, sem: int, c: int): Sys
    requires 0 <= sem < |s.sems|
  {
    s.(sems := s.sems[sem := s.sems[sem].(count := c)])
  }

  /** enqueue (system/queue.c:11-30). */
  ghost function Enqueued(s: Sys, q: int, p: int): Sys
    requires Sound(s) && q in s.lists.on && 0 <= p < NPROC
  {
    s.(lists := PutAt(s.lists, q, |s.lists.on[q]|, p))
  }

  /** dequeue, getfirst (system/queue.c:36-52, system/getitem.c:9-22). */
  ghost function Popped(s: Sys, q: int): Sys
    requires Sound(s) && q in s.lists.on && s.lists.on[q] != []
  {
    HomeOfIndex(s.lists, q, 0);
    s.(lists := DropAt(s.lists, q, 0))
  }

  /** getitem (system/getitem.c:47-58). */
  ghost function Unlinked(s: Sys, p: int): Sys
    requires Sound(s) && 0 <= p < NPROC && s.lists.home[p] != EMPTY
  {
    HomeHolds(s.lists, p);
    s.(lists := DropAt(s.lists, s.lists.home[p], IndexOf(s.lists.on[s.lists.home[p]], p)))
  }

  /** insert (system/insert.c). */
  ghost function Inserted(s: Sys, q: int, p: int, k: int): Sys
    requires Sound(s) && q in s.lists.on && 0 <= p < NPROC
  {
    InRange(s, q);
    s.(lists := WithKey(PutAt(s.lists, q, InsertPos(s.lists.on[q], s.lists.key, k, 0), p), p, k))
  }

  /** insertd (system/insertd.c). */
  ghost function InsertedD(s: Sys, q: int, p: int, d: int): Sys
    requires Sound(s) && q in s.lists.on && 0 <= p < NPROC
  {
    InRange(s, q);
    var l := s.lists.on[q];
    var (i, k) := DeltaPos(l, s.lists.key, d, 0);
    s.(lists := PutAt(s.lists, q, i, p).(key := Keys(l, s.lists.key, i, p, k)))
  }

  /** unsleep: the delay of the next sleeper grows by that of the removed one (system/unsleep.c:39-44). */
  ghost function Unslept(s: Sys, p: int): Sys
    requires Sound(s) && 0 <= p < NPROC && s.lists.home[p] != EMPTY
  {
    HomeHolds(s.lists, p);
    var l := s.lists.on[s.lists.home[p]];
    var i := IndexOf(l, p);
    InRange(s, s.lists.home[p]);
    s.(lists := DropAt(s.lists, s.lists.home[p], i).(key := PassOn(l, s.lists.key, i)))
  }

  // ---- dispatching ----------------------------------------------------------------------------

  ghost function ReadyList(s: Sys): seq<int>
    requires Sound(s)
  {
    s.lists.on[s.readylist]
  }

  /** firstkey(readylist): the tail's key when the list is empty. */
  ghost function FirstKey(s: Sys): int
    requires Sound(s)
  {
    if ReadyList(s) == [] then MINKEY else (HomeOfIndex(s.lists, s.readylist, 0); s.lists.key[ReadyList(s)[0]])
  }

  ghost function MakeReady(s: Sys, p: int): Sys
    requires Sound(s) && 0 <= p < NPROC
  {
    Inserted(SetState(s, p, Ready), s.readylist, p, s.procs[p].prio)
  }

  /** The first ready process becomes current (system/resched.c:40-42). */
  ghost function Dispatched(s: Sys): Sys
    requires Sound(s) && ReadyList(s) != []
  {
    HomeOfIndex(s.lists, s.readylist, 0);
    SetState(Popped(s, s.readylist), ReadyList(s)[0], Curr).(curr := ReadyList(s)[0])
  }

  /** Someone can run: the current process, or one that is ready. */
  ghost predicate CanRun(s: Sys)
    requires Sound(s)
  {
    if s.procs[s.curr].state == Curr then s.lists.home[s.curr] == EMPTY else ReadyList(s) != []
  }

  /** resched (system/resched.c:11-55). */
  ghost function Resched(s: Sys): Sys
    requires Sound(s) && CanRun(s)
  {
    if s.ndefers > 0 then s.(attempt := true)
    else if s.procs[s.curr].state == Curr then
      if s.procs[s.curr].prio > FirstKey(s) then s
      else
        PutReady(s, s.curr);
        Dispatched(MakeReady(s, s.curr))
    else Dispatched(s)
  }

  lemma PutReady(s: Sys, p: int)
    requires Sound(s) && 0 <= p < NPROC && s.lists.home[p] == EMPTY
    ensures Sound(MakeReady(s, p)) && p in ReadyList(MakeReady(s, p))
  {
    hide Shape;
    InRange(s, s.readylist);
    var i := InsertPos(ReadyList(s), s.lists.key, s.procs[p].prio, 0);
    PutShape(s.lists, s.readylist, i, p);
    KeyShape(PutAt(s.lists, s.readylist, i, p), p, s.procs[p].prio);
    PutIsIn(ReadyList(s), i, p, p);
  }

  // ---- what keeps the invariant: one primitive at a time -----------------------------------------

  /** A process leaves its list. */
  lemma DropLoose(s: Sys, q: int, i: int)
    requires LooseBut(s, EMPTY) && q in s.lists.on && 0 <= i < |s.lists.on[q]|
    ensures 0 <= s.lists.on[q][i] < |s.lists.home| && |s.lists.home| == NPROC
    ensures LooseBut(s.(lists := DropAt(s.lists, q, i)), s.lists.on[q][i])
  {
    hide Shape, NoDup, Descending;
    HomeOfIndex(s.lists, q, i);
    ShapeSizes(s.lists);
    HeadIds(s);
    DropShape(s.lists, q, i);
    var p := s.lists.on[q][i];
    var t := s.(lists := DropAt(s.lists, q, i));
    assert Sound(t);
    DropDescending(s.lists.on[q], i, s.lists.key);
    forall x | 0 <= x < NPROC && x != p
      ensures HomeOK(t, x)
    {
      assert HomeOK(s, x);
    }
    assert ReadyOK(t);
  }

  lemma DropDescending(l: seq<int>, i: int, key: seq<int>)
    requires 0 <= i < |l|
    ensures Descending(l, key) ==> Descending(Drop(l, i), key)
  {
  }

  /** A process off every list gets a state that has no list. */
  lemma StateLoose(s: Sys, p: int, pr: Proc)
    requires LooseBut(s, p) && 0 <= p < NPROC
    requires pr.state in {Free, Curr, Recv, Susp} && (pr.state == Curr ==> p == s.curr)
    requires pr.state != Free ==> 0 <= pr.prio < 0x8000 && (p != NULLPROC ==> pr.prio > 0)
    requires p == NULLPROC ==> pr.state == Curr && pr.prio == 0
    ensures LooseBut(SetProc(s, p, pr), EMPTY)
  {
    hide Shape, NoDup, Descending;
    var t := SetProc(s, p, pr);
    assert Sound(t);
    HeadIds(s);
    forall x | 0 <= x < NPROC
      ensures HomeOK(t, x)
    {
      if x != p {
        assert HomeOK(s, x);
      }
    }
  }

  lemma HeadIds(s: Sys)
    requires Sound(s)
    ensures s.readylist >= NPROC && s.sleepq >= NPROC && forall i :: 0 <= i < NSEM ==> s.sems[i].queue >= NPROC
  {
  }

  /** insert into the ready list. */
  lemma ReadyLoose(s: Sys, p: int)
    requires LooseBut(s, p) && 0 <= p < NPROC && s.procs[p].state != Free
    ensures LooseBut(MakeReady(s, p), EMPTY) && p in ReadyList(MakeReady(s, p))
  {
    hide Shape, NoDup, Descending;
    InRange(s, s.readylist);
    HeadIds(s);
    var l, k := ReadyList(s), s.procs[p].prio;
    var i := InsertPos(l, s.lists.key, k, 0);
    PutReady(s, p);
    var t := MakeReady(s, p);
    InsertDescending(s.lists, s.readylist, p, k);
    forall x | 0 <= x < NPROC
      ensures HomeOK(t, x)
    {
      if x != p {
        assert HomeOK(s, x);
      }
    }
    assert ReadyOK(t);
  }

  /** Insertion keeps a list in descending order of its keys. */
  lemma InsertDescending(s: Lists, q: int, p: int, k: int)
    requires Shape(s) && q in s.on && 0 <= p < NPROC && s.home[p] == EMPTY && Keyed(s.on[q], s.key)
             && Descending(s.on[q], s.key)
    ensures Descending(Put(s.on[q], InsertPos(s.on[q], s.key, k, 0), p), s.key[p := k])
  {
    hide Shape, NoDup;
    ShapeSizes(s);
    var l, i := s.on[q], InsertPos(s.on[q], s.key, k, 0);
    var l', key' := Put(l, i, p), s.key[p := k];
    forall j | 0 <= j < |l|
      ensures l[j] != p && key'[l[j]] == s.key[l[j]]
    {
      HomeOfIndex(s, q, j);
      HeadNotEmpty(q);
    }
    forall a, b | 0 <= a < b < |l'|
      ensures key'[l'[a]] >= key'[l'[b]]
    {
      var a', b' := if a < i then a else a - 1, if b < i then b else b - 1;
      if a != i {
        assert l'[a] == l[a'];
      }
      if b != i {
        assert l'[b] == l[b'];
      }
      if a == i && b' > i {
        assert s.key[l[i]] >= s.key[l[b']];
      }
    }
  }

  /** enqueue, insertd: onto a list other than the ready list. */
  lemma PutLoose(s: Sys, q: int, i: int, p: int, pr: Proc)
    requires LooseBut(s, p) && 0 <= p < NPROC && p != NULLPROC && q in s.lists.on && 0 <= i <= |s.lists.on[q]|
    requires pr.state in {Wait, Sleep, RecTim} && pr.prio == s.procs[p].prio && s.procs[p].state != Free
    requires if pr.state == Wait then 0 <= pr.sem < NSEM && q == s.sems[pr.sem].queue else q == s.sleepq
    ensures |s.lists.home| == NPROC && LooseBut(SetProc(s.(lists := PutAt(s.lists, q, i, p)), p, pr), EMPTY)
  {
    hide Shape, NoDup, Descending;
    ShapeSizes(s.lists);
    HeadIds(s);
    PutShape(s.lists, q, i, p);
    var t := SetProc(s.(lists := PutAt(s.lists, q, i, p)), p, pr);
    assert Sound(t);
    forall x | 0 <= x < NPROC
      ensures HomeOK(t, x)
    {
      if x != p {
        assert HomeOK(s, x);
      }
    }
  }

  /** The key of a process that is not ready changes. */
  lemma KeyLoose(s: Sys, e: int, p: int, k: int)
    requires LooseBut(s, e) && 0 <= p < NPROC && s.lists.home[p] != s.readylist
    ensures |s.lists.key| == NPROC && LooseBut(s.(lists := WithKey(s.lists, p, k)), e)
  {
    hide NoDup;
    var t := s.(lists := WithKey(s.lists, p, k));
    ShapeSizes(s.lists);
    KeyShape(s.lists, p, k);
    forall i | 0 <= i < |ReadyList(s)|
      ensures ReadyList(s)[i] != p
    {
      HomeOfIndex(s.lists, s.readylist, i);
    }
    forall x | 0 <= x < NPROC && x != e
      ensures HomeOK(t, x)
    {
      assert HomeOK(s, x);
    }
  }

  /** Nothing that the lists depend on differs. */
  ghost predicate SameCore(s: Sys, t: Sys)
  {
    && |t.procs| == |s.procs| && |t.at| == |s.at| && |t.sems| == |s.sems|
    && t.lists == s.lists && t.curr == s.curr && t.readylist == s.readylist && t.sleepq == s.sleepq
    && (forall p ::
       0 <= p < |s.procs| ==>
         t.procs[p].state == s.procs[p].state && t.procs[p].prio == s.procs[p].prio && t.procs[p].sem == s.procs[p].sem)
    && (forall i :: 0 <= i < |s.sems| ==> t.sems[i].queue == s.sems[i].queue)
    && 0 <= t.ndefers && 0 <= t.nextpid <= NPROC && 0 <= t.nextsem < NSEM
  }

  lemma FrameLoose(s: Sys, t: Sys, e: int)
    requires LooseBut(s, e) && SameCore(s, t)
    ensures LooseBut(t, e)
  {
    hide Shape, NoDup, Descending;
    assert Sound(t);
    forall x | 0 <= x < NPROC && x != e
      ensures HomeOK(t, x)
    {
      assert HomeOK(s, x);
    }
  }

  // ---- dispatching ---------------------------------------------------------------------------------

  /** The null process is current or ready, so whenever no process is current the ready list
      has somebody to dispatch. */
  lemma SomeoneCanRun(s: Sys)
    requires LooseBut(s, EMPTY)
    ensures CanRun(s)
  {
    hide Shape;
    assert HomeOK(s, s.curr) && HomeOK(s, NULLPROC);
    if s.procs[s.curr].state != Curr {
      HeadIds(s);
      HomeHolds(s.lists, NULLPROC);
    }
  }

  lemma DispatchLoose(s: Sys)
    requires LooseBut(s, EMPTY) && ReadyList(s) != []
    requires forall p :: 0 <= p < NPROC ==> s.procs[p].state != Curr
    ensures Core(Dispatched(s))
  {
    hide Shape, NoDup, Descending;
    var q, p := s.readylist, ReadyList(s)[0];
    HomeOfIndex(s.lists, q, 0);
    ReadyState(s, p);
    DropLoose(s, q, 0);
    var t := Popped(s, q);
    FrameCurr(t, p);
    StateLoose(t.(curr := p), p, s.procs[p].(state := Curr));
  }

  lemma FrameCurr(t: Sys, p: int)
    requires LooseBut(t, p) && 0 <= p < NPROC && forall x :: 0 <= x < NPROC ==> t.procs[x].state != Curr
    ensures LooseBut(t.(curr := p), p)
  {
    hide Shape, NoDup, Descending;
    var u := t.(curr := p);
    assert Sound(u);
    forall x | 0 <= x < NPROC && x != p
      ensures HomeOK(u, x)
    {
      assert HomeOK(t, x);
    }
  }

  /** Who is on the ready list is in the ready state, with its priority as key. */
  lemma ReadyState(s: Sys, p: int)
    requires LooseBut(s, EMPTY) && 0 <= p < NPROC
    ensures s.lists.home[p] == s.readylist <==> s.procs[p].state == Ready
    ensures s.procs[p].state == Ready ==> s.lists.key[p] == s.procs[p].prio && p in ReadyList(s)
  {
    HeadIds(s);
    assert HomeOK(s, p);
  }

  /** No ready process has a higher priority than the current one. */
  ghost predicate Top(s: Sys)
    requires Sound(s)
  {
    forall p :: 0 <= p < NPROC && s.procs[p].state == Ready ==> s.procs[p].prio <= s.procs[s.curr].prio
  }

  /** The scheduling rule: it holds unless a wish to reschedule is being deferred. */
  ghost predicate SchedOK(s: Sys)
    requires Sound(s)
  {
    s.ndefers == 0 || !s.attempt ==> Top(s)
  }

  /** No key on the ready list exceeds the first. */
  lemma FirstIsHighest(s: Sys, p: int)
    requires LooseBut(s, EMPTY) && 0 <= p < NPROC && s.procs[p].state == Ready
    ensures ReadyList(s) != [] && s.procs[p].prio <= FirstKey(s)
  {
    ReadyState(s, p);
    HomeOfIndex(s.lists, s.readylist, 0);
    var i := IndexOf(ReadyList(s), p);
  }

  /** Whatever has happened before it, resched leaves a current process of highest priority. */
  lemma ReschedOK(s: Sys)
    requires LooseBut(s, EMPTY) && (s.ndefers > 0 ==> s.procs[s.curr].state == Curr)
    ensures CanRun(s) && Core(Resched(s)) && SchedOK(Resched(s))
  {
    hide Shape, NoDup, Descending;
    SomeoneCanRun(s);
    if s.ndefers > 0 {
      FrameLoose(s, Resched(s), EMPTY);
    } else if s.procs[s.curr].state == Curr {
      if s.procs[s.curr].prio > FirstKey(s) {
        forall p | 0 <= p < NPROC && s.procs[p].state == Ready
          ensures s.procs[p].prio <= s.procs[s.curr].prio
        {
          FirstIsHighest(s, p);
        }
      } else {
        CurrLoose(s);
        ReadyLoose(s, s.curr);
        DispatchTop(MakeReady(s, s.curr));
      }
    } else {
      DispatchTop(s);
    }
  }

  lemma CurrLoose(s: Sys)
    requires LooseBut(s, EMPTY) && s.procs[s.curr].state == Curr
    ensures LooseBut(s, s.curr)
  {
    assert HomeOK(s, s.curr);
  }

  lemma DispatchTop(s: Sys)
    requires LooseBut(s, EMPTY) && ReadyList(s) != [] && s.procs[s.curr].state != Curr
    ensures Core(Dispatched(s)) && Top(Dispatched(s))
  {
    hide Shape, NoDup, Descending;
    DispatchLoose(s);
    var t := Dispatched(s);
    HomeOfIndex(s.lists, s.readylist, 0);
    ReadyState(s, ReadyList(s)[0]);
    forall p | 0 <= p < NPROC && t.procs[p].state == Ready
      ensures t.procs[p].prio <= t.procs[t.curr].prio
    {
      FirstIsHighest(s, p);
    }
  }
}
