// What each kernel call does to the state (system/ready.c, wait.c, signal.c, signaln.c,
// semreset.c, semdelete.c, semcreate.c, sleep.c, recvtime.c, receive.c, recvclr.c, send.c,
// suspend.c, resume.c, wakeup.c, kill.c, create.c, yield.c).

module Calls {

  import opened Common
  import opened Queues
  import opened Delta
  import opened Sched

  // ---- invariants beside the lists ---------------------------------------------------------

  /** A negative count is minus the number of waiting processes; otherwise nobody waits. */
  ghost predicate CountOK(s: Sys, i: int)
    requires Sound(s) && 0 <= i < NSEM
  {
    if s.sems[i].used then Balanced(s, i) else s.lists.on[s.sems[i].queue] == []
  }

  ghost predicate Balanced(s: Sys, i: int)
    requires Sound(s) && 0 <= i < NSEM
  {
    Matches(s.sems[i].count, s.lists.on[s.sems[i].queue])
  }

  /** All semaphores but number i (or all, for i == EMPTY). */
  ghost predicate SemsBut(s: Sys, i: int)
    requires Sound(s)
  {
    forall j :: 0 <= j < NSEM && j != i ==> CountOK(s, j)
  }

  ghost predicate SleepBut(s: Sys, low: int)
    requires Sound(s)
  {
    DelaysOK(s.lists.on[s.sleepq], s.lists.key, low)
  }

  /** A process in a receiving state has no message; one that has left receive's waiting state
      without leaving receive has its message. */
  ghost predicate MsgOK(s: Sys, p: int)
    requires Sound(s) && 0 <= p < NPROC
  {
    && (s.procs[p].state == Recv ==> s.at[p] == InReceive && !s.procs[p].hasmsg)
    && (s.procs[p].state == RecTim ==> s.at[p] == InRecvTime && !s.procs[p].hasmsg)
    && (s.at[p] == InReceive && s.procs[p].state != Free ==> s.procs[p].hasmsg || s.procs[p].state == Recv)
  }

  ghost predicate MsgsBut(s: Sys, p: int)
    requires Sound(s)
  {
    && (forall x :: 0 <= x < NPROC && x != p ==> MsgOK(s, x))
    && (0 <= p < NPROC && s.at[p] == InReceive ==> s.procs[p].hasmsg)
  }

  /** The invariant inside a call: process p is between lists, semaphore i is being changed, the
      first sleeper's key is at least low. */
  ghost predicate Mid(s: Sys, p: int, i: int, low: int)
  {
    LooseBut(s, p) && SemsBut(s, i) && SleepBut(s, low) && MsgsBut(s, p)
  }

  /** The invariant of the kernel between calls. */
  ghost predicate Inv(s: Sys)
  {
    Mid(s, EMPTY, EMPTY, 0) && s.procs[s.curr].state == Curr && SchedOK(s)
  }

  // ---- making ready touches the ready list only ------------------------------------------------

  /** From s to t only the ready list, ready and current states and the current process changed;
      process e (if any) was on no list and has become ready or current. */
  ghost predicate ReadyOnly(s: Sys, t: Sys, e: int)
    requires Sound(s) && Sound(t)
  {
    && t.sems == s.sems && t.at == s.at && t.ndefers == s.ndefers && t.nextpid == s.nextpid && t.nextsem == s.nextsem
    && t.readylist == s.readylist && t.sleepq == s.sleepq
    && (forall q :: q in s.lists.on && q != s.readylist ==> q in t.lists.on && t.lists.on[q] == s.lists.on[q])
    && (forall p ::
       0 <= p < NPROC && s.lists.home[p] != s.readylist && s.lists.home[p] != EMPTY ==>
         t.lists.key[p] == s.lists.key[p])
    && (forall p :: 0 <= p < NPROC ==> OnlyState(s.procs[p], t.procs[p], p == e))
  }

  /** Only the state differs, if anything. */
  ghost predicate OnlyState(a: Proc, b: Proc, woken: bool)
  {
    && b == a.(state := b.state)
    && (b.state == a.state || b.state in {Ready, Curr})
    && (a.state in {Ready, Curr} || woken || b.state == a.state)
    && (woken ==> b.state in {Ready, Curr})
  }

  lemma ReadyOnlyTrans(s: Sys, t: Sys, u: Sys, e: int)
    requires Sound(s) && Sound(t) && Sound(u) && ReadyOnly(s, t, e) && ReadyOnly(t, u, EMPTY)
    ensures ReadyOnly(s, u, e)
  {
    hide Shape, NoDup;
    ShapeSizes(s.lists);
    ShapeSizes(t.lists);
    ShapeSizes(u.lists);
    forall p | 0 <= p < NPROC && s.lists.home[p] != s.readylist && s.lists.home[p] != EMPTY
      ensures u.lists.key[p] == s.lists.key[p]
    {
      HomeHolds(s.lists, p);
      OnHome(t.lists, s.lists.home[p], p);
    }
    forall p | 0 <= p < NPROC
      ensures OnlyState(s.procs[p], u.procs[p], p == e)
    {
      assert OnlyState(s.procs[p], t.procs[p], p == e) && OnlyState(t.procs[p], u.procs[p], p == EMPTY);
    }
  }

  lemma MakeReadyOnly(s: Sys, p: int)
    requires Sound(s) && 0 <= p < NPROC && s.lists.home[p] == EMPTY
    ensures Sound(MakeReady(s, p)) && ReadyOnly(s, MakeReady(s, p), p)
  {
    hide Shape, NoDup;
    PutReady(s, p);
    InRange(s, s.readylist);
  }

  lemma DispatchOnly(s: Sys)
    requires LooseBut(s, EMPTY) && ReadyList(s) != [] && Sound(Dispatched(s))
    ensures ReadyOnly(s, Dispatched(s), EMPTY)
  {
    hide Shape, NoDup;
    HomeOfIndex(s.lists, s.readylist, 0);
    ReadyState(s, ReadyList(s)[0]);
  }

  lemma ReschedOnly(s: Sys)
    requires LooseBut(s, EMPTY) && (s.ndefers > 0 ==> s.procs[s.curr].state == Curr)
    ensures CanRun(s) && Sound(Resched(s)) && ReadyOnly(s, Resched(s), EMPTY)
  {
    hide Shape, NoDup, PrioOK, OneCurr, ReadyOK;
    ReschedOK(s);
    if s.ndefers == 0 {
      if s.procs[s.curr].state == Curr {
        if s.procs[s.curr].prio <= FirstKey(s) {
          CurrLoose(s);
          MakeReadyOnly(s, s.curr);
          ReadyLoose(s, s.curr);
          var t := MakeReady(s, s.curr);
          DispatchOnly(t);
          CurrReadyTrans(s, t, Dispatched(t));
        }
      } else {
        DispatchOnly(s);
      }
    }
  }

  lemma CurrReadyTrans(s: Sys, t: Sys, u: Sys)
    requires Sound(s) && Sound(t) && Sound(u) && ReadyOnly(s, t, s.curr) && ReadyOnly(t, u, EMPTY)
             && s.procs[s.curr].state == Curr
    ensures ReadyOnly(s, u, EMPTY)
  {
    hide Shape, NoDup;
    ReadyOnlyTrans(s, t, u, s.curr);
    forall p | 0 <= p < NPROC
      ensures OnlyState(s.procs[p], u.procs[p], p == EMPTY)
    {
      assert OnlyState(s.procs[p], u.procs[p], p == s.curr);
    }
  }

  // ---- steps of the invariant inside a call ----------------------------------------------------

  lemma QueueOf(s: Sys, i: int)
    requires Sound(s) && 0 <= i < NSEM
    ensures s.sems[i].queue in s.lists.on && s.sems[i].queue != s.readylist && s.sems[i].queue != s.sleepq
    ensures forall j :: 0 <= j < NSEM && j != i ==> s.sems[j].queue != s.sems[i].queue
  {
  }

  lemma ReadyOnlyMid(s: Sys, t: Sys, p: int, i: int, low: int)
    requires Mid(s, p, i, low) && LooseBut(t, EMPTY) && ReadyOnly(s, t, p)
    ensures Mid(t, EMPTY, i, low)
  {
    hide Shape, NoDup, PrioOK, OneCurr, ReadyOK, HomeOK;
    forall j | 0 <= j < NSEM && j != i
      ensures CountOK(t, j)
    {
      QueueOf(s, j);
      assert CountOK(s, j);
    }
    HeadIds(s);
    SleepFrame(s, t, low);
    forall x | 0 <= x < NPROC
      ensures MsgOK(t, x)
    {
      assert OnlyState(s.procs[x], t.procs[x], x == p);
      assert x != p ==> MsgOK(s, x);
    }
  }

  /** The sleep queue and the keys on it are the same. */
  lemma SleepFrame(s: Sys, t: Sys, low: int)
    requires Sound(s) && Sound(t) && SleepBut(s, low) && t.sleepq == s.sleepq
             && t.lists.on[t.sleepq] == s.lists.on[s.sleepq]
    requires forall x :: 0 <= x < NPROC && s.lists.home[x] == s.sleepq ==> t.lists.key[x] == s.lists.key[x]
    ensures SleepBut(t, low)
  {
    hide Shape, NoDup;
    ShapeSizes(s.lists);
    ShapeSizes(t.lists);
    var l := s.lists.on[s.sleepq];
    forall j | 0 <= j < |l|
      ensures 0 <= l[j] < NPROC && t.lists.key[l[j]] == s.lists.key[l[j]]
    {
      HomeOfIndex(s.lists, s.sleepq, j);
    }
    InRange(t, t.sleepq);
    RemainingSame(l, s.lists.key, l, t.lists.key, |l|);
  }

  lemma ReschedMid(s: Sys, i: int, low: int)
    requires Mid(s, EMPTY, i, low) && (s.ndefers > 0 ==> s.procs[s.curr].state == Curr)
    ensures CanRun(s) && Mid(Resched(s), EMPTY, i, low) && Core(Resched(s)) && SchedOK(Resched(s))
    ensures ReadyOnly(s, Resched(s), EMPTY)
  {
    hide LooseBut, SemsBut, SleepBut, MsgsBut, ReadyOnly, Resched, SchedOK;
    Sounds(s, EMPTY, i, low);
    SomeoneCanRun(s);
    ReschedOK(s);
    ReschedOnly(s);
    ReadyOnlyMid(s, Resched(s), EMPTY, i, low);
  }

  /** ready (system/ready.c:11-29). */
  ghost function Readied(s: Sys, p: int): (t: Sys)
    requires LooseBut(s, p) && 0 <= p < NPROC && s.procs[p].state != Free
    requires s.procs[s.curr].state == Curr && p != s.curr
    ensures Core(t) && SchedOK(t) && ReadyOnly(s, t, p)
  {
    ReadyLoose(s, p);
    MakeReadyOnly(s, p);
    ReschedOK(MakeReady(s, p));
    ReschedOnly(MakeReady(s, p));
    ReadyOnlyTrans(s, MakeReady(s, p), Resched(MakeReady(s, p)), p);
    Resched(MakeReady(s, p))
  }

  lemma ReadiedMid(s: Sys, p: int, i: int, low: int)
    requires Mid(s, p, i, low) && 0 <= p < NPROC && s.procs[p].state != Free && s.procs[s.curr].state == Curr
             && p != s.curr
    ensures Mid(Readied(s, p), EMPTY, i, low) && Core(Readied(s, p)) && SchedOK(Readied(s, p))
            && ReadyOnly(s, Readied(s, p), p)
  {
    hide LooseBut, SemsBut, SleepBut, MsgsBut, ReadyOnly, Readied, SchedOK;
    ReadyOnlyMid(s, Readied(s, p), p, i, low);
  }

  /** A process leaves the ready list or the queue of the semaphore that is being changed. */
  lemma DropMid(s: Sys, q: int, k: int, i: int, low: int)
    requires Mid(s, EMPTY, i, low) && q in s.lists.on && 0 <= k < |s.lists.on[q]|
    requires q == s.readylist || (0 <= i < NSEM && q == s.sems[i].queue)
    ensures 0 <= s.lists.on[q][k] < |s.lists.home| && |s.lists.home| == NPROC
    ensures Mid(s.(lists := DropAt(s.lists, q, k)), s.lists.on[q][k], i, low)
    ensures s.procs[s.lists.on[q][k]].state == if q == s.readylist then Ready else Wait
  {
    hide Shape, NoDup, PrioOK, OneCurr, ReadyOK, Descending;
    DropLoose(s, q, k);
    HomeOfIndex(s.lists, q, k);
    HeadIds(s);
    var p := s.lists.on[q][k];
    var t := s.(lists := DropAt(s.lists, q, k));
    assert HomeOK(s, p);
    if 0 <= i < NSEM {
      QueueOf(s, i);
    }
    forall j | 0 <= j < NSEM && j != i
      ensures CountOK(t, j)
    {
      QueueOf(s, j);
      assert CountOK(s, j);
    }
    SleepFrame(s, t, low);
    forall x | 0 <= x < NPROC
      ensures MsgOK(t, x)
    {
      assert MsgOK(s, x);
    }
    assert LooseBut(t, p);
    assert SemsBut(t, i);
    assert SleepBut(t, low);
    assert MsgOK(t, p);
    assert MsgsBut(t, p);
  }

  /** Semaphore i gets another count and use. */
  lemma SemMid(s: Sys, p: int, i: int, low: int, v: Sem)
    requires Mid(s, p, i, low) && 0 <= i < NSEM && v.queue == s.sems[i].queue
    ensures Mid(s.(sems := s.sems[i := v]), p, i, low)
  {
    hide Shape, NoDup, PrioOK, OneCurr, ReadyOK, HomeOK;
    var t := s.(sems := s.sems[i := v]);
    FrameLoose(s, t, p);
    forall j | 0 <= j < NSEM && j != i
      ensures CountOK(t, j)
    {
      assert CountOK(s, j);
    }
    assert forall x :: 0 <= x < NPROC && MsgOK(s, x) ==> MsgOK(t, x);
  }

  lemma OpenSem(s: Sys, p: int, i: int, low: int)
    requires Mid(s, p, EMPTY, low) && 0 <= i < NSEM
    ensures Mid(s, p, i, low) && CountOK(s, i)
  {
    hide LooseBut, Shape;
  }

  lemma CloseSem(s: Sys, p: int, i: int, low: int)
    requires Mid(s, p, i, low) && 0 <= i < NSEM && CountOK(s, i)
    ensures Mid(s, p, EMPTY, low)
  {
    hide LooseBut, Shape;
  }

  // ---- deferral ---------------------------------------------------------------------------------

  /** resched_cntl(DEFER_START) (system/resched.c:67-72). */
  ghost function Start(s: Sys): Sys
  {
    s.(ndefers := s.ndefers + 1, attempt := if s.ndefers == 0 then false else s.attempt)
  }

  /** resched_cntl(DEFER_STOP) (system/resched.c:74-81). */
  ghost function Stop(s: Sys): (t: Sys)
    requires Core(s)
  {
    if s.ndefers <= 0 then s
    else
      var s1 := s.(ndefers := s.ndefers - 1);
      FrameLoose(s, s1, EMPTY);
      if s1.ndefers == 0 && s.attempt then
        SomeoneCanRun(s1);
        Resched(s1)
      else s1
  }

  /** Fields that no invariant but the scheduling rule mentions. */
  lemma FrameMid(s: Sys, t: Sys, p: int, i: int, low: int)
    requires Mid(s, p, i, low) && SameCore(s, t) && t.sems == s.sems && t.procs == s.procs && t.at == s.at
    ensures Mid(t, p, i, low)
  {
    hide Shape, NoDup, PrioOK, OneCurr, ReadyOK, HomeOK;
    FrameLoose(s, t, p);
    assert forall j :: 0 <= j < NSEM && CountOK(s, j) ==> CountOK(t, j);
    assert forall x :: 0 <= x < NPROC && MsgOK(s, x) ==> MsgOK(t, x);
  }

  lemma StartMid(s: Sys, i: int, low: int)
    requires Mid(s, EMPTY, i, low) && s.procs[s.curr].state == Curr
    ensures Mid(Start(s), EMPTY, i, low) && Core(Start(s)) && (SchedOK(s) ==> SchedOK(Start(s)))
  {
    hide LooseBut, SemsBut, SleepBut, MsgsBut;
    Sounds(s, EMPTY, i, low);
    FrameMid(s, Start(s), EMPTY, i, low);
    TopFrame(s, Start(s));
  }

  lemma Sounds(s: Sys, p: int, i: int, low: int)
    requires Mid(s, p, i, low)
    ensures Sound(s) && LooseBut(s, p)
  {
  }

  lemma TopFrame(s: Sys, t: Sys)
    requires LooseBut(s, EMPTY) && t.procs == s.procs && t.curr == s.curr && Sound(t)
    ensures Top(s) <==> Top(t)
  {
    hide Shape;
  }

  lemma StopMid(s: Sys, i: int, low: int)
    requires Mid(s, EMPTY, i, low) && Core(s)
    ensures Mid(Stop(s), EMPTY, i, low) && Core(Stop(s)) && (SchedOK(s) ==> SchedOK(Stop(s)))
  {
    hide LooseBut, SemsBut, SleepBut, MsgsBut, Resched, ReadyOnly;
    Sounds(s, EMPTY, i, low);
    if s.ndefers > 0 {
      var s1 := s.(ndefers := s.ndefers - 1);
      FrameMid(s, s1, EMPTY, i, low);
      Sounds(s1, EMPTY, i, low);
      TopFrame(s, s1);
      ReschedMid(s1, i, low);
    }
  }

  // ---- semaphores -------------------------------------------------------------------------------

  ghost function First(s: Sys, q: int): (p: int)
    requires Sound(s) && q in s.lists.on && s.lists.on[q] != []
    ensures 0 <= p < NPROC && s.lists.home[p] == q
  {
    HomeOfIndex(s.lists, q, 0);
    s.lists.on[q][0]
  }

  /** The current process goes to the end of the queue of semaphore i. */
  ghost function Waiting(s: Sys, i: int): Sys
    requires Sound(s) && 0 <= i < NSEM
  {
    QueueOf(s, i);
    SetProc(s.(lists := PutAt(s.lists, s.sems[i].queue, |s.lists.on[s.sems[i].queue]|, s.curr)), s.curr,
            s.procs[s.curr].(state := Wait, sem := i))
  }

  lemma WaitingMid(s: Sys, i: int, low: int)
    requires Mid(s, EMPTY, i, low) && Core(s) && s.curr != NULLPROC && 0 <= i < NSEM
    ensures Mid(Waiting(s, i), EMPTY, i, low)
    ensures Waiting(s, i).lists.on[s.sems[i].queue] == s.lists.on[s.sems[i].queue] + [s.curr]
  {
    hide Shape, NoDup, PrioOK, OneCurr, ReadyOK, HomeOK, Descending;
    QueueOf(s, i);
    CurrLoose(s);
    var q := s.sems[i].queue;
    PutLoose(s, q, |s.lists.on[q]|, s.curr, s.procs[s.curr].(state := Wait, sem := i));
    var t := Waiting(s, i);
    forall j | 0 <= j < NSEM && j != i
      ensures CountOK(t, j)
    {
      QueueOf(s, j);
      assert CountOK(s, j);
    }
    SleepFrame(s, t, low);
    forall x | 0 <= x < NPROC
      ensures MsgOK(t, x)
    {
      assert MsgOK(s, x);
    }
  }

  /** wait (system/wait.c:29-35). */
  ghost function Waited(s: Sys, i: int): (t: Sys)
    requires Inv(s) && 0 <= i < NSEM && s.sems[i].used
    requires s.sems[i].count <= 0 ==> s.curr != NULLPROC && s.ndefers == 0
    ensures Inv(t)
  {
    var s1 := SetCount(s, i, s.sems[i].count - 1);
    WaitInv(s, i);
    if s1.sems[i].count < 0 then Resched(Waiting(s1, i)) else s1
  }

  lemma WaitInv(s: Sys, i: int)
    requires Inv(s) && 0 <= i < NSEM && s.sems[i].used
    requires s.sems[i].count <= 0 ==> s.curr != NULLPROC && s.ndefers == 0
    ensures var s1 := SetCount(s, i, s.sems[i].count - 1);
            && Sound(s1)
            && if s1.sems[i].count < 0 then Sound(Waiting(s1, i)) && CanRun(Waiting(s1, i))
               && Inv(Resched(Waiting(s1, i))) else Inv(s1)
  {
    hide LooseBut, SemsBut, SleepBut, MsgsBut, Resched, Waiting, ReadyOnly, SchedOK, Top;
    Sounds(s, EMPTY, EMPTY, 0);
    OpenSem(s, EMPTY, i, 0);
    var s1 := SetCount(s, i, s.sems[i].count - 1);
    SemMid(s, EMPTY, i, 0, s.sems[i].(count := s.sems[i].count - 1));
    Sounds(s1, EMPTY, i, 0);
    if s1.sems[i].count < 0 {
      WaitingMid(s1, i, 0);
      WaitingFields(s1, i);
      var s2 := Waiting(s1, i);
      Sounds(s2, EMPTY, i, 0);
      CloseSem(s2, EMPTY, i, 0);
      ReschedMid(s2, EMPTY, 0);
    } else {
      CloseSem(s1, EMPTY, i, 0);
      SchedFrame(s, s1);
    }
  }

  lemma WaitingFields(s: Sys, i: int)
    requires Sound(s) && 0 <= i < NSEM
    ensures Waiting(s, i).sems == s.sems && Waiting(s, i).ndefers == s.ndefers
  {
  }

  lemma SchedFrame(s: Sys, t: Sys)
    requires Sound(s) && Sound(t) && t.procs == s.procs && t.curr == s.curr && t.ndefers == s.ndefers
             && t.attempt == s.attempt
    ensures SchedOK(s) <==> SchedOK(t)
  {
    hide Shape;
  }

  /** One V operation (system/signal.c:26-28, system/signaln.c:30-32). */
  ghost function Signal1(s: Sys, i: int): (t: Sys)
    requires Mid(s, EMPTY, EMPTY, 0) && Core(s) && 0 <= i < NSEM && s.sems[i].used
    ensures Mid(t, EMPTY, EMPTY, 0) && Core(t) && (SchedOK(s) ==> SchedOK(t))
            && t.sems == s.sems[i := s.sems[i].(count := s.sems[i].count + 1)]
    ensures t.ndefers == s.ndefers
  {
    var s1 := SetCount(s, i, s.sems[i].count + 1);
    SignalInv(s, i);
    if s.sems[i].count < 0 then
      var q := s1.sems[i].queue;
      Readied(Popped(s1, q), First(s1, q))
    else s1
  }

  lemma SignalInv(s: Sys, i: int)
    requires Mid(s, EMPTY, EMPTY, 0) && Core(s) && 0 <= i < NSEM && s.sems[i].used
    ensures var s1 := SetCount(s, i, s.sems[i].count + 1);
            var q := s1.sems[i].queue;
            && Sound(s1)
            && if s.sems[i].count < 0 then
                 && q in s1.lists.on && s1.lists.on[q] != []
                 && Woken(Popped(s1, q), First(s1, q), EMPTY, 0)
               else Mid(s1, EMPTY, EMPTY, 0) && Core(s1) && (SchedOK(s) ==> SchedOK(s1))
  {
    hide LooseBut, SemsBut, SleepBut, MsgsBut, Resched, ReadyOnly, SchedOK, Top;
    Sounds(s, EMPTY, EMPTY, 0);
    OpenSem(s, EMPTY, i, 0);
    var s1 := SetCount(s, i, s.sems[i].count + 1);
    SemMid(s, EMPTY, i, 0, s.sems[i].(count := s.sems[i].count + 1));
    Sounds(s1, EMPTY, i, 0);
    QueueOf(s1, i);
    if s.sems[i].count < 0 {
      var q := s1.sems[i].queue;
      DropMid(s1, q, 0, i, 0);
      var s2 := Popped(s1, q);
      Sounds(s2, First(s1, q), i, 0);
      CloseSem(s2, First(s1, q), i, 0);
      WokenIs(s2, First(s1, q), EMPTY, 0);
    } else {
      CloseSem(s1, EMPTY, i, 0);
      SchedFrame(s, s1);
    }
  }

  /** Process p, just taken off a list, can be made ready. */
  ghost predicate Woken(s: Sys, p: int, i: int, low: int)
  {
    && Mid(s, p, i, low) && 0 <= p < NPROC && s.procs[p].state != Free && s.procs[s.curr].state == Curr && p != s.curr
    && Mid(Readied(s, p), EMPTY, i, low) && Core(Readied(s, p)) && SchedOK(Readied(s, p))
       && ReadyOnly(s, Readied(s, p), p)
  }

  lemma WokenIs(s: Sys, p: int, i: int, low: int)
    requires Mid(s, p, i, low) && 0 <= p < NPROC && s.procs[p].state in {Wait, Sleep, RecTim, Recv, Susp}
             && s.procs[s.curr].state == Curr
    ensures Woken(s, p, i, low)
  {
    hide LooseBut, SemsBut, SleepBut, MsgsBut, Resched, ReadyOnly, SchedOK, Top, Readied;
    Sounds(s, p, i, low);
    ReadiedMid(s, p, i, low);
  }

  /** signal (system/signal.c:21-28). */
  ghost function Signalled(s: Sys, i: int): (t: Sys)
    requires Inv(s) && 0 <= i < NSEM && s.sems[i].used
    ensures Inv(t)
  {
    Signal1(s, i)
  }

  ghost function SignalLoop(s: Sys, i: int, n: nat): (t: Sys)
    requires Mid(s, EMPTY, EMPTY, 0) && Core(s) && 0 <= i < NSEM && s.sems[i].used
    ensures Mid(t, EMPTY, EMPTY, 0) && Core(t) && (SchedOK(s) ==> SchedOK(t)) && t.ndefers == s.ndefers
    decreases n
  {
    if n == 0 then s else SignalLoop(Signal1(s, i), i, n - 1)
  }

  /** signaln (system/signaln.c:28-34). */
  ghost function SignalledN(s: Sys, i: int, n: nat): (t: Sys)
    requires Inv(s) && 0 <= i < NSEM && s.sems[i].used
    ensures Inv(t)
  {
    StartMid(s, EMPTY, 0);
    var s1 := SignalLoop(Start(s), i, n);
    StopMid(s1, EMPTY, 0);
    Stop(s1)
  }

  /** The first waiting process of semaphore i is made ready; the count is not touched. */
  ghost function Released(s: Sys, i: int): (t: Sys)
    requires Mid(s, EMPTY, i, 0) && Core(s) && 0 <= i < NSEM && s.lists.on[s.sems[i].queue] != []
    ensures Mid(t, EMPTY, i, 0) && Core(t) && SchedOK(t) && t.sems == s.sems && t.ndefers == s.ndefers
    ensures t.lists.on[s.sems[i].queue] == s.lists.on[s.sems[i].queue][1..]
  {
    var q := s.sems[i].queue;
    ReleaseInv(s, i);
    Readied(Popped(s, q), First(s, q))
  }

  lemma ReleaseInv(s: Sys, i: int)
    requires Mid(s, EMPTY, i, 0) && Core(s) && 0 <= i < NSEM && s.lists.on[s.sems[i].queue] != []
    ensures var q := s.sems[i].queue; Woken(Popped(s, q), First(s, q), i, 0)
    ensures var q := s.sems[i].queue; Popped(s, q).lists.on[q] == s.lists.on[q][1..]
  {
    hide LooseBut, SemsBut, SleepBut, MsgsBut, Resched, ReadyOnly, SchedOK, Top;
    Sounds(s, EMPTY, i, 0);
    QueueOf(s, i);
    var q := s.sems[i].queue;
    DropMid(s, q, 0, i, 0);
    WokenIs(Popped(s, q), First(s, q), i, 0);
  }

  ghost function ReleaseAll(s: Sys, i: int): (t: Sys)
    requires Mid(s, EMPTY, i, 0) && Core(s) && 0 <= i < NSEM
    ensures Mid(t, EMPTY, i, 0) && Core(t) && (SchedOK(s) ==> SchedOK(t)) && t.sems == s.sems && t.ndefers == s.ndefers
    ensures t.lists.on[s.sems[i].queue] == []
    decreases |s.lists.on[s.sems[i].queue]|
  {
    if s.lists.on[s.sems[i].queue] == [] then s else ReleaseAll(Released(s, i), i)
  }

  /** semreset (system/semreset.c:26-32). */
  ghost function ResetTo(s: Sys, i: int, n: nat): (t: Sys)
    requires Inv(s) && 0 <= i < NSEM && s.sems[i].used
    ensures Inv(t)
  {
    StartMid(s, EMPTY, 0);
    OpenSem(Start(s), EMPTY, i, 0);
    var s1 := ReleaseAll(Start(s), i);
    var s2 := SetCount(s1, i, n);
    SetCountInv(s1, i, s1.sems[i].(count := n));
    StopMid(s2, EMPTY, 0);
    Stop(s2)
  }

  lemma SetCountInv(s: Sys, i: int, v: Sem)
    requires Mid(s, EMPTY, i, 0) && Core(s) && 0 <= i < NSEM && v.queue == s.sems[i].queue
    requires s.lists.on[s.sems[i].queue] == [] && v.count >= 0
    ensures var t := s.(sems := s.sems[i := v]);
            Mid(t, EMPTY, EMPTY, 0) && Core(t) && (SchedOK(s) ==> SchedOK(t))
  {
    hide LooseBut, SemsBut, SleepBut, MsgsBut, SchedOK, Top;
    Sounds(s, EMPTY, i, 0);
    SemMid(s, EMPTY, i, 0, v);
    var t := s.(sems := s.sems[i := v]);
    Sounds(t, EMPTY, i, 0);
    CloseSem(t, EMPTY, i, 0);
    SchedFrame(s, t);
  }

  /** while (scount++ < 0) (system/semdelete.c:30-32). */
  ghost function DeleteLoop(s: Sys, i: int): (t: Sys)
    requires Mid(s, EMPTY, i, 0) && Core(s) && 0 <= i < NSEM && Balanced(s, i)
    ensures Mid(t, EMPTY, i, 0) && Core(t) && (SchedOK(s) ==> SchedOK(t)) && t.ndefers == s.ndefers
    ensures t.lists.on[t.sems[i].queue] == [] && t.sems[i].used == s.sems[i].used && t.sems[i].count >= 1
    decreases |s.lists.on[s.sems[i].queue]|
  {
    var s1 := SetCount(s, i, s.sems[i].count + 1);
    SemMid(s, EMPTY, i, 0, s.sems[i].(count := s.sems[i].count + 1));
    SchedFrame(s, s1);
    if s.sems[i].count < 0 then DeleteLoop(Released(s1, i), i) else s1
  }

  /** semdelete (system/semdelete.c:27-33). */
  ghost function Deleted(s: Sys, i: int): (t: Sys)
    requires Inv(s) && 0 <= i < NSEM && s.sems[i].used
    ensures Inv(t)
  {
    OpenSem(s, EMPTY, i, 0);
    var s0 := s.(sems := s.sems[i := s.sems[i].(used := false)]);
    SemMid(s, EMPTY, i, 0, s.sems[i].(used := false));
    SchedFrame(s, s0);
    StartMid(s0, i, 0);
    var s1 := DeleteLoop(Start(s0), i);
    CloseSem(s1, EMPTY, i, 0);
    StopMid(s1, EMPTY, 0);
    Stop(s1)
  }

  /** newsem: the next free entry, searching round the table (system/semcreate.c:40-49). */
  function FindSem(sems: seq<Sem>, next: int, tries: nat): (r: (int, int))
    requires |sems| == NSEM && 0 <= next < NSEM
    ensures 0 <= r.1 < NSEM && (r.0 == -1 || (0 <= r.0 < NSEM && !sems[r.0].used))
    decreases tries
  {
    if tries == 0 then (-1, next)
    else
      var next' := if next + 1 >= NSEM then 0 else next + 1;
      if !sems[next].used then (next, next') else FindSem(sems, next', tries - 1)
  }

  function FreeSems(sems: seq<Sem>): (r: seq<bool>)
    ensures |r| == |sems|
  {
    seq(|sems|, i requires 0 <= i < |sems| => !sems[i].used)
  }

  /** The search for a semaphore: the first free one round the table, and the next search starts behind it. */
  lemma {:induction false} FindSemLaw(sems: seq<Sem>, next: int, tries: nat)
    requires |sems| == NSEM && 0 <= next < NSEM && tries <= NSEM
    ensures var (i, next') := FindSem(sems, next, tries);
            FirstFree(FreeSems(sems), next, tries, i) && (i != -1 ==> next' == (i + 1) % NSEM)
    decreases tries
  {
    hide FirstFree;
    var free := FreeSems(sems);
    if tries == 0 {
      NoTries(free, next);
    } else if !sems[next].used {
      FirstFreeHere(free, next, tries);
    } else {
      var next' := if next + 1 >= NSEM then 0 else next + 1;
      FindSemLaw(sems, next', tries - 1);
      FirstFreeStep(free, next, next', tries, FindSem(sems, next', tries - 1).0);
    }
  }

  /** No semaphore is granted only if all are in use. */
  lemma NoSemLeft(sems: seq<Sem>, next: int)
    requires |sems| == NSEM && 0 <= next < NSEM
    ensures FindSem(sems, next, NSEM).0 == -1 <==> forall i :: 0 <= i < NSEM ==> sems[i].used
  {
    hide FindSem;
    var free := FreeSems(sems);
    FindSemLaw(sems, next, NSEM);
    assert forall i :: 0 <= i < NSEM ==> free[i] == !sems[i].used;
    if FindSem(sems, next, NSEM).0 == -1 {
      FirstFreeNone(free, next);
    }
  }

  /** semcreate with a legal count (system/semcreate.c:20-24). */
  ghost function SemCreated(s: Sys, n: nat): (t: Sys)
    requires Inv(s)
    ensures Inv(t)
  {
    var (i, next) := FindSem(s.sems, s.nextsem, NSEM);
    var s1 := s.(nextsem := next);
    FrameMid(s, s1, EMPTY, EMPTY, 0);
    SchedFrame(s, s1);
    if i == -1 then s1
    else
      OpenSem(s1, EMPTY, i, 0);
      SetCountInv(s1, i, s.sems[i].(used := true, count := n));
      s1.(sems := s1.sems[i := s1.sems[i].(used := true, count := n)])
  }

  // ---- the sleep queue --------------------------------------------------------------------------

  /** The current process goes on the delta list, in state st and at place pl. */
  ghost function Sleeping(s: Sys, d: int, st: PState, pl: Place): Sys
    requires Sound(s)
  {
    InRange(s, s.sleepq);
    SetState(InsertedD(s, s.sleepq, s.curr, d), s.curr, st).(at := s.at[s.curr := pl])
  }

  lemma SleepingMid(s: Sys, d: int, st: PState, pl: Place)
    requires Mid(s, EMPTY, EMPTY, 0) && Core(s) && s.curr != NULLPROC && 0 <= d <= MAXKEY
    requires (st == Sleep && pl == Outside) || (st == RecTim && pl == InRecvTime && !s.procs[s.curr].hasmsg)
    ensures Mid(Sleeping(s, d, st, pl), EMPTY, EMPTY, 0) && Sleeping(s, d, st, pl).ndefers == s.ndefers
  {
    hide NoDup, PrioOK, OneCurr, ReadyOK, Descending, HomeOK, SemsBut, MsgsBut, Remaining;
    CurrLoose(s);
    InRange(s, s.sleepq);
    var l, key, p := s.lists.on[s.sleepq], s.lists.key, s.curr;
    var (i, k) := DeltaPos(l, key, d, 0);
    var pr := s.procs[p].(state := st);
    PutLoose(s, s.sleepq, i, p, pr);
    var s1 := SetProc(s.(lists := PutAt(s.lists, s.sleepq, i, p)), p, pr);
    ListNoDup(s.lists, s.sleepq);
    OffList(s.lists, s.sleepq, p);
    InsertDelays(l, key, p, d);
    SleepKeys(s1, l, key, i, p, k);
    var t := Sleeping(s, d, st, pl);
    FrameLoose(s1.(lists := s1.lists.(key := Keys(l, key, i, p, k))), t, EMPTY);
    SleepingRest(s, t, d, st, pl);
  }

  lemma OffList(s: Lists, q: int, p: int)
    requires Shape(s) && q in s.on && 0 <= p < NPROC && s.home[p] == EMPTY
    ensures p !in s.on[q]
  {
    if p in s.on[q] {
      OnHome(s, q, p);
      HeadNotEmpty(q);
    }
  }

  /** The keys that insertd writes belong to processes on the sleep queue. */
  lemma SleepKeys(s: Sys, l: seq<int>, key: seq<int>, i: int, p: int, k: int)
    requires LooseBut(s, EMPTY) && s.lists.key == key && 0 <= p < NPROC && s.lists.home[p] == s.sleepq
    requires 0 <= i <= |l| && (i < |l| ==> 0 <= l[i] < NPROC && s.lists.home[l[i]] == s.sleepq)
    ensures |key| == NPROC && LooseBut(s.(lists := s.lists.(key := Keys(l, key, i, p, k))), EMPTY)
  {
    hide LooseBut;
    LooseSizes(s, EMPTY);
    KeyLoose(s, EMPTY, p, k);
    if i < |l| {
      KeyLoose(s.(lists := WithKey(s.lists, p, k)), EMPTY, l[i], key[p := k][l[i]] - k);
    }
  }

  lemma LooseSizes(s: Sys, p: int)
    requires LooseBut(s, p)
    ensures Sound(s) && |s.lists.key| == NPROC && |s.lists.home| == NPROC && s.readylist != s.sleepq
  {
  }

  lemma SleepingRest(s: Sys, t: Sys, d: int, st: PState, pl: Place)
    requires Mid(s, EMPTY, EMPTY, 0) && Core(s) && LooseBut(t, EMPTY) && t == Sleeping(s, d, st, pl)
    requires (st == Sleep && pl == Outside) || (st == RecTim && pl == InRecvTime && !s.procs[s.curr].hasmsg)
    ensures SemsBut(t, EMPTY) && MsgsBut(t, EMPTY) && t.ndefers == s.ndefers
  {
    hide Shape, NoDup, PrioOK, OneCurr, ReadyOK, Descending, HomeOK;
    forall j | 0 <= j < NSEM
      ensures CountOK(t, j)
    {
      QueueOf(s, j);
      assert CountOK(s, j);
    }
    forall x | 0 <= x < NPROC
      ensures MsgOK(t, x)
    {
      assert MsgOK(s, x);
    }
  }

  /** sleepms (system/sleep.c:32-49). */
  ghost function Slept(s: Sys, d: int): (t: Sys)
    requires Inv(s) && 0 <= d <= MAXKEY && (d > 0 ==> s.curr != NULLPROC && s.ndefers == 0)
    requires s.at[s.curr] == Outside
    ensures Inv(t)
  {
    if d == 0 then
      ReschedMid(s, EMPTY, 0);
      Resched(s)
    else
      SleepingMid(s, d, Sleep, Outside);
      ReschedMid(Sleeping(s, d, Sleep, Outside), EMPTY, 0);
      Resched(Sleeping(s, d, Sleep, Outside))
  }

  /** A sleeper is taken off the delta list early. */
  lemma UnsleptMid(s: Sys, p: int)
    requires Mid(s, EMPTY, EMPTY, 0) && 0 <= p < NPROC && s.procs[p].state in {Sleep, RecTim}
    ensures s.lists.home[p] == s.sleepq && s.sleepq != EMPTY
    ensures Mid(Unslept(s, p), p, EMPTY, 0) && Unslept(s, p).procs == s.procs && Unslept(s, p).curr == s.curr
  {
    hide NoDup, LooseBut, SemsBut, MsgsBut, SleepBut, Keyed, Remaining, Unslept;
    Sounds(s, EMPTY, EMPTY, 0);
    SleeperHome(s, p);
    UnsleptLoose(s, p);
    LooseSizes(Unslept(s, p), p);
    UnsleptDelays(s, p);
    UnsleptRest(s, p);
  }

  lemma UnsleptLoose(s: Sys, p: int)
    requires LooseBut(s, EMPTY) && 0 <= p < NPROC && s.lists.home[p] == s.sleepq && s.sleepq != EMPTY
    ensures LooseBut(Unslept(s, p), p) && Unslept(s, p).procs == s.procs && Unslept(s, p).curr == s.curr
  {
    hide NoDup, LooseBut, Descending, HomeOK, Shape;
    LooseSizes(s, EMPTY);
    HomeHolds(s.lists, p);
    InRange(s, s.sleepq);
    var l, key := s.lists.on[s.sleepq], s.lists.key;
    var i := IndexOf(l, p);
    if i + 1 < |l| {
      HomeOfIndex(s.lists, s.sleepq, i + 1);
      KeyLoose(s, EMPTY, l[i + 1], key[l[i + 1]] + key[p]);
      DropLoose(s.(lists := WithKey(s.lists, l[i + 1], key[l[i + 1]] + key[p])), s.sleepq, i);
    } else {
      DropLoose(s, s.sleepq, i);
    }
  }

  lemma UnsleptDelays(s: Sys, p: int)
    requires Sound(s) && SleepBut(s, 0) && 0 <= p < NPROC && s.lists.home[p] == s.sleepq && s.sleepq != EMPTY
             && Sound(Unslept(s, p))
    ensures SleepBut(Unslept(s, p), 0)
  {
    hide NoDup, Shape, DelaysOK;
    HomeHolds(s.lists, p);
    InRange(s, s.sleepq);
    ListNoDup(s.lists, s.sleepq);
    RemoveDelays(s.lists.on[s.sleepq], s.lists.key, IndexOf(s.lists.on[s.sleepq], p));
  }

  lemma SleeperHome(s: Sys, p: int)
    requires LooseBut(s, EMPTY) && 0 <= p < NPROC && s.procs[p].state in {Sleep, RecTim}
    ensures s.lists.home[p] == s.sleepq && s.sleepq != EMPTY
  {
    assert HomeOK(s, p);
    HeadIds(s);
  }

  lemma UnsleptRest(s: Sys, p: int)
    requires Mid(s, EMPTY, EMPTY, 0) && 0 <= p < NPROC && s.procs[p].state in {Sleep, RecTim}
    requires s.lists.home[p] == s.sleepq && s.sleepq != EMPTY && LooseBut(Unslept(s, p), p)
    ensures SemsBut(Unslept(s, p), EMPTY) && MsgsBut(Unslept(s, p), p)
  {
    hide Shape, NoDup, PrioOK, OneCurr, ReadyOK, Descending, HomeOK;
    var t := Unslept(s, p);
    forall j | 0 <= j < NSEM
      ensures CountOK(t, j)
    {
      QueueOf(s, j);
      assert CountOK(s, j);
    }
    forall x | 0 <= x < NPROC
      ensures MsgOK(t, x)
    {
      assert MsgOK(s, x);
    }
    assert MsgOK(t, p);
  }

  /** The first sleeper leaves, its time being up. */
  lemma PopSleepMid(s: Sys)
    requires Mid(s, EMPTY, EMPTY, 0) || Mid(s, EMPTY, EMPTY, -1)
    requires s.lists.on[s.sleepq] != [] && s.lists.key[First(s, s.sleepq)] <= 0
    ensures Mid(Popped(s, s.sleepq), First(s, s.sleepq), EMPTY, 0)
    ensures s.procs[First(s, s.sleepq)].state in {Sleep, RecTim}
  {
    hide NoDup, PrioOK, OneCurr, ReadyOK, Descending;
    var q, p := s.sleepq, First(s, s.sleepq);
    HomeOfIndex(s.lists, q, 0);
    HeadIds(s);
    assert HomeOK(s, p);
    DropLoose(s, q, 0);
    PopDelays(s.lists.on[q], s.lists.key);
    PopSleepRest(s, p);
  }

  lemma PopSleepRest(s: Sys, p: int)
    requires Mid(s, EMPTY, EMPTY, 0) || Mid(s, EMPTY, EMPTY, -1)
    requires s.lists.on[s.sleepq] != [] && p == First(s, s.sleepq) && LooseBut(Popped(s, s.sleepq), p)
    ensures SemsBut(Popped(s, s.sleepq), EMPTY) && MsgsBut(Popped(s, s.sleepq), p)
  {
    hide Shape, NoDup, PrioOK, OneCurr, ReadyOK, Descending;
    var t := Popped(s, s.sleepq);
    HeadIds(s);
    assert HomeOK(s, p);
    forall j | 0 <= j < NSEM
      ensures CountOK(t, j)
    {
      QueueOf(s, j);
      assert CountOK(s, j);
    }
    forall x | 0 <= x < NPROC
      ensures MsgOK(t, x)
    {
      assert MsgOK(s, x);
    }
    assert MsgOK(t, p);
  }

  /** The state inside the loop of wakeup. */
  ghost predicate WakeReady(s: Sys)
  {
    (Mid(s, EMPTY, EMPTY, 0) || Mid(s, EMPTY, EMPTY, -1)) && Core(s)
  }

  /** The loop of wakeup (system/wakeup.c:14-16). */
  ghost function WakeLoop(s: Sys): (t: Sys)
    requires WakeReady(s)
    ensures Mid(t, EMPTY, EMPTY, 0) && Core(t) && (SchedOK(s) ==> SchedOK(t)) && t.ndefers == s.ndefers
    ensures t.sleepq == s.sleepq && (t.lists.on[t.sleepq] == [] || t.lists.key[First(t, t.sleepq)] > 0)
    decreases |s.lists.on[s.sleepq]|
  {
    if s.lists.on[s.sleepq] != [] && s.lists.key[First(s, s.sleepq)] <= 0 then
      PopSleepMid(s);
      WokenIs(Popped(s, s.sleepq), First(s, s.sleepq), EMPTY, 0);
      WakeLoop(Readied(Popped(s, s.sleepq), First(s, s.sleepq)))
    else
      Settled(s);
      s
  }

  lemma Settled(s: Sys)
    requires Mid(s, EMPTY, EMPTY, 0) || Mid(s, EMPTY, EMPTY, -1)
    requires s.lists.on[s.sleepq] != [] ==> s.lists.key[First(s, s.sleepq)] > 0
    ensures Mid(s, EMPTY, EMPTY, 0)
  {
    hide Shape, SemsBut, MsgsBut;
    SettledDelays(s.lists.on[s.sleepq], s.lists.key);
  }

  /** wakeup (system/wakeup.c:9-20). */
  ghost function Wakened(s: Sys): (t: Sys)
    requires WakeReady(s)
    ensures Mid(t, EMPTY, EMPTY, 0) && Core(t) && (SchedOK(s) ==> SchedOK(t))
  {
    WakeStart(s);
    StopMid(WakeLoop(Start(s)), EMPTY, 0);
    Stop(WakeLoop(Start(s)))
  }

  lemma WakeStart(s: Sys)
    requires WakeReady(s)
    ensures (Mid(Start(s), EMPTY, EMPTY, 0) || Mid(Start(s), EMPTY, EMPTY, -1)) && Core(Start(s))
            && (SchedOK(s) ==> SchedOK(Start(s)))
  {
    hide Mid, Start, Core, SchedOK;
    if Mid(s, EMPTY, EMPTY, 0) {
      CoreCurr(s);
      StartMid(s, EMPTY, 0);
    } else {
      CoreCurr(s);
      StartMid(s, EMPTY, -1);
    }
  }

  lemma CoreCurr(s: Sys)
    requires Core(s)
    ensures Sound(s) && s.procs[s.curr].state == Curr
  {
  }

  /** The first sleeper's key goes down by one. */
  ghost function Ticked1(s: Sys): Sys
    requires Sound(s) && s.lists.on[s.sleepq] != []
  {
    var p := First(s, s.sleepq);
    s.(lists := WithKey(s.lists, p, s.lists.key[p] - 1))
  }

  lemma TickMid(s: Sys)
    requires Mid(s, EMPTY, EMPTY, 0) && Core(s) && s.lists.on[s.sleepq] != []
    ensures Mid(Ticked1(s), EMPTY, EMPTY, -1) && Core(Ticked1(s)) && (SchedOK(s) ==> SchedOK(Ticked1(s)))
  {
    hide NoDup, PrioOK, OneCurr, ReadyOK, Descending, HomeOK;
    var q, p := s.sleepq, First(s, s.sleepq);
    HomeOfIndex(s.lists, q, 0);
    KeyLoose(s, EMPTY, p, s.lists.key[p] - 1);
    ListNoDup(s.lists, q);
    TickDelays(s.lists.on[q], s.lists.key);
    var t := Ticked1(s);
    SchedFrame(s, t);
    forall j | 0 <= j < NSEM
      ensures CountOK(t, j)
    {
      assert CountOK(s, j);
    }
    forall x | 0 <= x < NPROC
      ensures MsgOK(t, x)
    {
      assert MsgOK(s, x);
    }
  }

  /** The clock interrupt (system/platform/arm-qemu/clkhandler.c:28-37). */
  ghost function Ticked(s: Sys): (t: Sys)
    requires Inv(s)
    ensures Inv(t)
  {
    if s.lists.on[s.sleepq] == [] then
      ReschedMid(s, EMPTY, 0);
      Resched(s)
    else
      TickMid(s);
      var s1 := Ticked1(s);
      if s1.lists.key[First(s, s.sleepq)] <= 0 then
        Wakened(s1)
      else
        Settled(s1);
        ReschedMid(s1, EMPTY, 0);
        Resched(s1)
  }
}
