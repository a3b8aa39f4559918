// What a run does to the semaphores: counts against waiting processes, arrival order, and how
// many processes get past wait (system/wait.c, signal.c, signaln.c, semreset.c, semdelete.c, kill.c).

module Semaphores {

  import opened Queues
  import opened Delta
  import opened Sched
  import opened Calls
  import opened Procs
  import opened Kernel
  import opened KernelRun

  ghost function WaitersOf(s: Sys, i: int): seq<int>
    requires Sound(s) && 0 <= i < NSEM
  {
    QueueOf(s, i);
    s.lists.on[s.sems[i].queue]
  }

  /** Semaphores other than x keep count and queue, and nobody but e ceases to exist; with z set
      the sleep queue and its keys are the same, too. */
  ghost predicate Kept(s: Sys, t: Sys, x: int, e: int, z: bool)
  {
    && Sound(s) && Sound(t) && t.readylist == s.readylist && t.sleepq == s.sleepq
    && (forall j :: 0 <= j < NSEM ==> t.sems[j].queue == s.sems[j].queue)
    && (forall j :: 0 <= j < NSEM && j != x ==> t.sems[j] == s.sems[j] && WaitersOf(t, j) == WaitersOf(s, j))
    && (forall p :: 0 <= p < NPROC && p != e && s.procs[p].state != Free ==> t.procs[p].state != Free)
    && (z ==> SleepSame(s, t))
  }

  ghost predicate SleepSame(s: Sys, t: Sys)
    requires Sound(s) && Sound(t) && t.sleepq == s.sleepq
  {
    && t.lists.on[s.sleepq] == s.lists.on[s.sleepq]
    && forall p :: 0 <= p < NPROC && s.lists.home[p] == s.sleepq ==> t.lists.key[p] == s.lists.key[p]
  }

  lemma SleepHome(s: Sys, t: Sys, p: int)
    requires Sound(s) && Sound(t) && t.sleepq == s.sleepq && t.lists.on[s.sleepq] == s.lists.on[s.sleepq]
    requires 0 <= p < NPROC && s.lists.home[p] == s.sleepq
    ensures t.lists.home[p] == s.sleepq
  {
    HeadIds(s);
    HomeHolds(s.lists, p);
    OnHome(t.lists, s.sleepq, p);
  }

  lemma KeptTrans(s: Sys, t: Sys, u: Sys, x: int, e: int, z: bool)
    requires Kept(s, t, x, e, z) || Kept(s, t, x, e, true)
    requires Kept(t, u, x, e, z) || Kept(t, u, x, e, true)
    ensures Kept(s, u, x, e, z)
  {
    hide Shape;
    ShapeSizes(s.lists);
    ShapeSizes(t.lists);
    ShapeSizes(u.lists);
    if z {
      forall p | 0 <= p < NPROC && s.lists.home[p] == s.sleepq
        ensures u.lists.key[p] == s.lists.key[p]
      {
        SleepHome(s, t, p);
      }
    }
  }

  lemma KeptWeaken(s: Sys, t: Sys, x: int, e: int, z: bool)
    requires Kept(s, t, EMPTY, EMPTY, z) || Kept(s, t, EMPTY, EMPTY, true)
    ensures Kept(s, t, x, e, z)
  {
    hide Shape;
  }

  lemma ReadyKept(s: Sys, t: Sys, e: int)
    requires Sound(s) && Sound(t) && ReadyOnly(s, t, e)
    ensures Kept(s, t, EMPTY, EMPTY, true)
  {
    hide Shape;
    HeadIds(s);
    forall j | 0 <= j < NSEM
      ensures WaitersOf(t, j) == WaitersOf(s, j)
    {
      QueueOf(s, j);
    }
    forall p | 0 <= p < NPROC && s.procs[p].state != Free
      ensures t.procs[p].state != Free
    {
      assert OnlyState(s.procs[p], t.procs[p], p == e);
    }
  }

  /** One list other than the queues of the semaphores changes, or the queue of semaphore x. */
  lemma ListKept(s: Sys, t: Sys, q: int, x: int, e: int, z: bool)
    requires Sound(s) && Sound(t) && t.readylist == s.readylist && t.sleepq == s.sleepq
    requires forall j :: 0 <= j < NSEM ==> t.sems[j].queue == s.sems[j].queue && (j != x ==> t.sems[j] == s.sems[j])
    requires forall r :: r in s.lists.on && r != q ==> r in t.lists.on && t.lists.on[r] == s.lists.on[r]
    requires q == s.readylist || q == s.sleepq || (0 <= x < NSEM && q == s.sems[x].queue)
    requires z ==> q != s.sleepq && t.lists.key == s.lists.key
    requires forall p :: 0 <= p < NPROC && p != e && s.procs[p].state != Free ==> t.procs[p].state != Free
    ensures Kept(s, t, x, e, z)
  {
    hide Shape;
    forall j | 0 <= j < NSEM && j != x
      ensures WaitersOf(t, j) == WaitersOf(s, j)
    {
      QueueOf(s, j);
      if 0 <= x < NSEM {
        QueueOf(s, x);
      }
    }
  }

  lemma SameKept(s: Sys, t: Sys, e: int, z: bool)
    requires Sound(s) && Sound(t) && t.readylist == s.readylist && t.sleepq == s.sleepq && t.sems == s.sems
             && t.lists.on == s.lists.on
    requires z ==> t.lists.key == s.lists.key
    requires forall p :: 0 <= p < NPROC && p != e && s.procs[p].state != Free ==> t.procs[p].state != Free
    ensures Kept(s, t, EMPTY, e, z)
  {
    hide Shape;
  }

  // ---- calls that are not about semaphores ---------------------------------------------------

  lemma ReschedKept(s: Sys)
    requires LooseBut(s, EMPTY) && (s.ndefers > 0 ==> s.procs[s.curr].state == Curr)
    ensures CanRun(s) && Kept(s, Resched(s), EMPTY, EMPTY, true)
  {
    hide Shape, Resched, ReadyOnly, LooseBut;
    ReschedOK(s);
    ReschedOnly(s);
    LooseSound(s, EMPTY);
    LooseSound(Resched(s), EMPTY);
    ReadyKept(s, Resched(s), EMPTY);
  }

  lemma LooseSound(s: Sys, e: int)
    requires LooseBut(s, e)
    ensures Sound(s)
  {
  }

  lemma ReadiedKept(s: Sys, p: int)
    requires LooseBut(s, p) && 0 <= p < NPROC && s.procs[p].state != Free && s.procs[s.curr].state == Curr
             && p != s.curr
    ensures Kept(s, Readied(s, p), EMPTY, EMPTY, true)
  {
    hide Shape, ReadyOnly, Readied;
    ReadyKept(s, Readied(s, p), p);
  }

  lemma StopKept(s: Sys)
    requires Core(s)
    ensures Kept(s, Stop(s), EMPTY, EMPTY, true)
  {
    hide Shape, Resched, Kept;
    LooseSound(s, EMPTY);
    if s.ndefers > 0 {
      var s1 := s.(ndefers := s.ndefers - 1);
      FrameLoose(s, s1, EMPTY);
      SameKept(s, s1, EMPTY, true);
      if s1.ndefers == 0 && s.attempt {
        ReschedKept(s1);
        KeptTrans(s, s1, Resched(s1), EMPTY, EMPTY, true);
      }
    } else {
      SameKept(s, s, EMPTY, true);
    }
  }

  lemma SleepingKept(s: Sys, d: int, st: PState, pl: Place)
    requires Inv(s) && s.curr != NULLPROC && 0 <= d <= MAXKEY && s.ndefers == 0
    requires (st == Sleep && pl == Outside) || (st == RecTim && pl == InRecvTime && !s.procs[s.curr].hasmsg)
    ensures var t := Sleeping(s, d, st, pl); Sound(t) && CanRun(t) && Kept(s, Resched(t), EMPTY, EMPTY, false)
  {
    hide Shape, Resched, MsgsBut, SemsBut, SleepBut, SchedOK, HomeOK, ReadyOK, Kept;
    SleepingMid(s, d, st, pl);
    var t := Sleeping(s, d, st, pl);
    SleepingList(s, d, st, pl);
    ReschedKept(t);
    KeptTrans(s, t, Resched(t), EMPTY, EMPTY, false);
  }

  lemma SleepingList(s: Sys, d: int, st: PState, pl: Place)
    requires Sound(s) && Sound(Sleeping(s, d, st, pl)) && st != Free
    ensures Kept(s, Sleeping(s, d, st, pl), EMPTY, EMPTY, false)
  {
    hide Shape, Kept, Keys, DeltaPos;
    ListKept(s, Sleeping(s, d, st, pl), s.sleepq, EMPTY, EMPTY, false);
  }

  lemma BecameKept(s: Sys, pr: Proc, pl: Place)
    requires Inv(s) && pr.state in {Free, Curr, Recv, Susp} && pr.prio == s.procs[s.curr].prio
    requires s.curr == NULLPROC ==> pr.state == Curr
    requires pr.state == Recv ==> pl == InReceive && !pr.hasmsg
    requires pl == InReceive && pr.state != Free ==> pr.hasmsg || pr.state == Recv
    requires s.ndefers > 0 ==> pr.state == Curr
    ensures Kept(s, Became(s, pr, pl), EMPTY, if pr.state == Free then s.curr else EMPTY, true)
    ensures CanRun(Became(s, pr, pl))
            && Kept(s, Resched(Became(s, pr, pl)), EMPTY, if pr.state == Free then s.curr else EMPTY, true)
  {
    hide Shape, Resched, MsgsBut, SemsBut, SleepBut, SchedOK, HomeOK, ReadyOK, Kept;
    BecameMid(s, pr, pl);
    var t, e := Became(s, pr, pl), if pr.state == Free then s.curr else EMPTY;
    SameKept(s, t, e, true);
    ReschedKept(t);
    KeptWeaken(t, Resched(t), EMPTY, e, true);
    KeptTrans(s, t, Resched(t), EMPTY, e, true);
  }

  lemma SentKept(s: Sys, p: int, msg: int)
    requires Inv(s) && !BadPid(s, p) && !s.procs[p].hasmsg
    ensures Kept(s, Sent(s, p, msg), EMPTY, EMPTY, s.procs[p].state != RecTim)
  {
    hide Shape, Readied, MsgsBut, SemsBut, SleepBut, SchedOK, HomeOK, ReadyOK, Kept, ReadyOnly;
    SentInv(s, p, msg);
    var s1 := SetProc(s, p, s.procs[p].(msg := msg, hasmsg := true));
    SameKept(s, s1, EMPTY, s.procs[p].state != RecTim);
    if s.procs[p].state == Recv {
      ReadiedKept(s1, p);
      KeptTrans(s, s1, Readied(s1, p), EMPTY, EMPTY, s.procs[p].state != RecTim);
    } else if s.procs[p].state == RecTim {
      SleeperHome(s, p);
      UnsleptList(s1, p);
      KeptTrans(s, s1, Unslept(s1, p), EMPTY, EMPTY, s.procs[p].state != RecTim);
      ReadiedKept(Unslept(s1, p), p);
      KeptTrans(s, Unslept(s1, p), Readied(Unslept(s1, p), p), EMPTY, EMPTY, s.procs[p].state != RecTim);
    }
  }

  lemma UnsleptList(s: Sys, p: int)
    requires Sound(s) && 0 <= p < NPROC && s.lists.home[p] == s.sleepq && s.sleepq != EMPTY && Sound(Unslept(s, p))
    ensures Kept(s, Unslept(s, p), EMPTY, EMPTY, false)
  {
    hide Shape, Kept;
    ListKept(s, Unslept(s, p), s.sleepq, EMPTY, EMPTY, false);
  }

  lemma UnreadiedKept(s: Sys, p: int, st: PState)
    requires Inv(s) && 0 < p < NPROC && s.procs[p].state == Ready && st in {Free, Susp}
    ensures Kept(s, Unreadied(s, p, st), EMPTY, if st == Free then p else EMPTY, true)
  {
    hide Shape, Kept, MsgsBut, SemsBut, SleepBut, SchedOK, HomeOK, ReadyOK;
    UnreadyMid(s, p, st);
    ListKept(s, Unreadied(s, p, st), s.readylist, EMPTY, if st == Free then p else EMPTY, true);
  }

  lemma {:induction false} WakeKept(s: Sys)
    requires WakeReady(s)
    ensures Kept(s, WakeLoop(s), EMPTY, EMPTY, false)
    decreases |s.lists.on[s.sleepq]|
  {
    hide Shape, Kept, MsgsBut, SemsBut, SleepBut, SchedOK, HomeOK, ReadyOK, Readied;
    ShapeSizes(s.lists);
    if s.lists.on[s.sleepq] != [] && s.lists.key[First(s, s.sleepq)] <= 0 {
      PopSleepMid(s);
      var p, s1 := First(s, s.sleepq), Popped(s, s.sleepq);
      WokenIs(s1, p, EMPTY, 0);
      ListKept(s, s1, s.sleepq, EMPTY, EMPTY, false);
      ReadiedKept(s1, p);
      KeptTrans(s, s1, Readied(s1, p), EMPTY, EMPTY, false);
      WakeShrinks(s);
      WakeKept(Readied(s1, p));
      KeptTrans(s, Readied(s1, p), WakeLoop(Readied(s1, p)), EMPTY, EMPTY, false);
    } else {
      SameKept(s, s, EMPTY, false);
    }
  }

  lemma WakeShrinks(s: Sys)
    requires WakeReady(s)
    requires s.lists.on[s.sleepq] != [] && s.lists.key[First(s, s.sleepq)] <= 0
    ensures var p, s1 := First(s, s.sleepq), Popped(s, s.sleepq);
            && Woken(s1, p, EMPTY, 0)
            && var t := Readied(s1, p);
               Sound(t) && t.sleepq == s.sleepq && t.sleepq in t.lists.on
                   && |t.lists.on[t.sleepq]| < |s.lists.on[s.sleepq]|
  {
    hide Shape, MsgsBut, SemsBut, SleepBut, SchedOK, HomeOK, ReadyOK;
    PopSleepMid(s);
    WokenIs(Popped(s, s.sleepq), First(s, s.sleepq), EMPTY, 0);
  }

  lemma TickedKept(s: Sys)
    requires Inv(s)
    ensures Kept(s, Ticked(s), EMPTY, EMPTY, false)
  {
    hide Shape, Kept, MsgsBut, SemsBut, SleepBut, SchedOK, HomeOK, ReadyOK, Resched, WakeLoop, Stop;
    if s.lists.on[s.sleepq] == [] {
      ReschedKept(s);
      KeptWeaken(s, Resched(s), EMPTY, EMPTY, false);
    } else {
      TickMid(s);
      var s1 := Ticked1(s);
      SameKept(s, s1, EMPTY, false);
      ShapeSizes(s1.lists);
      if s1.lists.key[First(s, s.sleepq)] <= 0 {
        WakeStart(s1);
        var s2 := Start(s1);
        SameKept(s1, s2, EMPTY, false);
        KeptTrans(s, s1, s2, EMPTY, EMPTY, false);
        WakeKept(s2);
        KeptTrans(s, s2, WakeLoop(s2), EMPTY, EMPTY, false);
        StopKept(WakeLoop(s2));
        KeptTrans(s, WakeLoop(s2), Stop(WakeLoop(s2)), EMPTY, EMPTY, false);
      } else {
        ReschedKept(s1);
        KeptTrans(s, s1, Resched(s1), EMPTY, EMPTY, false);
      }
    }
  }

  /** A killed process that was not waiting leaves no trace on any semaphore. */
  lemma RemovedKept(s: Sys, p: int)
    requires Inv(s) && 0 < p < NPROC && (p == s.curr ==> s.ndefers == 0) && s.procs[p].state != Wait
    ensures Kept(s, Removed(s, p), EMPTY, p, s.procs[p].state !in {Sleep, RecTim})
  {
    hide Shape, Kept, MsgsBut, SemsBut, SleepBut, SchedOK, HomeOK, ReadyOK, Resched, Unslept;
    if s.procs[p].state == Curr {
      CurrIs(s, p);
      BecameKept(s, s.procs[p].(state := Free), Outside);
    } else if s.procs[p].state in {Sleep, RecTim} {
      UnslumberMid(s, p);
      UnsleptMid(s, p);
      UnsleptList(s, p);
      KeptWeaken(s, Unslept(s, p), EMPTY, p, s.procs[p].state !in {Sleep, RecTim});
      SameKept(Unslept(s, p), SetState(Unslept(s, p), p, Free), p, s.procs[p].state !in {Sleep, RecTim});
      KeptTrans(s, Unslept(s, p), SetState(Unslept(s, p), p, Free), EMPTY, p, s.procs[p].state !in {Sleep, RecTim});
    } else if s.procs[p].state == Ready {
      UnreadiedKept(s, p, Free);
    } else {
      SameKept(s, Removed(s, p), p, s.procs[p].state !in {Sleep, RecTim});
    }
  }

  /** A process starts to sleep, stops sleeping, or has less time to go. */
  ghost predicate MovesSleeper(s: Sys, c: Call)
    requires Sound(s)
  {
    match c
    case SleepCall(d) => d > 0
    case RecvTimeCall(d) => d >= 0 && !s.procs[s.curr].hasmsg
    case SendCall(p, m) => !BadPid(s, p) && s.procs[p].state == RecTim
    case KillCall(p) => p != NULLPROC && !BadPid(s, p) && !BadPid(s, s.procs[p].parent)
        && s.procs[s.procs[p].parent].state == RecTim
    case KillRest(p) => 0 <= p < NPROC && s.procs[p].state in {Sleep, RecTim}
    case Tick => true
    case _ => false
  }

  /** Calls that are not about a semaphore leave all semaphores alone. */
  lemma OtherCallsKept(s: Sys, c: Call)
    requires Inv(s) && CallOK(s, c) && !OnSemaphore(c) && !(c.KillRest? && s.procs[c.pid].state == Wait)
    ensures Kept(s, Apply(s, c), EMPTY, if c.KillRest? then c.pid else EMPTY, !MovesSleeper(s, c))
  {
    hide Shape, Kept, MsgsBut, SemsBut, SleepBut, SchedOK, HomeOK, ReadyOK, Resched, Sent, Stop, Removed, Ticked,
        Sleeping, Unreadied;
    SameKept(s, s, EMPTY, !MovesSleeper(s, c));
    match c
    case SleepCall(d) =>
      if d > 0 {
        SleepingKept(s, d, Sleep, Outside);
      } else {
        ReschedKept(s);
      }
    case YieldCall => ReschedKept(s);
    case ReceiveCall =>
      if !s.procs[s.curr].hasmsg {
        BecameKept(s, s.procs[s.curr].(state := Recv), InReceive);
      } else {
        TookKept(s);
      }
    case ReceiveRest => TookKept(s);
    case RecvTimeCall(d) =>
      if d >= 0 && !s.procs[s.curr].hasmsg {
        SleepingKept(s, d, RecTim, InRecvTime);
      } else {
        TookKept(s);
      }
    case RecvTimeRest => TookKept(s);
    case RecvClrCall => TookKept(s);
    case SendCall(p, m) =>
      if !BadPid(s, p) && !s.procs[p].hasmsg {
        SentKept(s, p, m);
      }
    case SuspendCall(p) =>
      if !BadPid(s, p) && p != NULLPROC {
        if s.procs[p].state == Ready {
          UnreadiedKept(s, p, Susp);
        } else if s.procs[p].state == Curr {
          SuspendCurr(s, p);
          BecameKept(s, s.procs[s.curr].(state := Susp), Outside);
        }
      }
    case ResumeCall(p) =>
      if !BadPid(s, p) && s.procs[p].state == Susp {
        ResumeMid(s, p);
        ReadiedKept(s, p);
      }
    case CreateCall(g, prio) => SameKept(s, Apply(s, c), EMPTY, true);
    case KillCall(p) =>
      if !BadPid(s, p) && p != NULLPROC {
        var parent := s.procs[p].parent;
        if !BadPid(s, parent) && !s.procs[parent].hasmsg {
          SentKept(s, parent, p);
        }
      }
    case KillRest(p) => RemovedKept(s, p);
    case DeferCall => SameKept(s, Start(s), EMPTY, true);
    case UndeferCall => StopKept(s);
    case Tick => TickedKept(s);
  }

  lemma TookKept(s: Sys)
    requires Inv(s)
    ensures Kept(s, TookMessage(s), EMPTY, EMPTY, true)
  {
    hide Shape, Kept, MsgsBut, SemsBut, SleepBut, SchedOK, HomeOK, ReadyOK;
    SameKept(s, TookMessage(s), EMPTY, true);
  }

  // ---- calls about semaphores -------------------------------------------------------------------

  lemma WaitedQueue(s: Sys, i: int)
    requires Inv(s) && 0 <= i < NSEM && s.sems[i].used
             && (s.sems[i].count <= 0 ==> s.curr != NULLPROC && s.ndefers == 0)
    ensures var t := Waited(s, i);
            && Kept(s, t, i, EMPTY, true) && t.sems[i] == s.sems[i].(count := s.sems[i].count - 1)
            && WaitersOf(t, i) == WaitersOf(s, i) + if s.sems[i].count <= 0 then [s.curr] else []
  {
    hide Shape, Kept, MsgsBut, SemsBut, SleepBut, SchedOK, HomeOK, ReadyOK, Resched, Waiting, PrioOK, OneCurr;
    WaitInv(s, i);
    var s1 := SetCount(s, i, s.sems[i].count - 1);
    if s.sems[i].count <= 0 {
      OpenSem(s, EMPTY, i, 0);
      SemMid(s, EMPTY, i, 0, s1.sems[i]);
      WaitingMid(s1, i, 0);
      WaitingFields(s1, i);
      var s2 := Waiting(s1, i);
      WaitingList(s, i);
      ReschedKept(s2);
      KeptWeaken(s2, Resched(s2), i, EMPTY, true);
      KeptTrans(s, s2, Resched(s2), i, EMPTY, true);
      KeptAt(s2, Resched(s2), i);
    } else {
      QueueOf(s, i);
      ListKept(s, s1, s.sems[i].queue, i, EMPTY, true);
    }
  }

  lemma KeptAt(s: Sys, t: Sys, i: int)
    requires Kept(s, t, EMPTY, EMPTY, true) && 0 <= i < NSEM
    ensures t.sems[i] == s.sems[i] && WaitersOf(t, i) == WaitersOf(s, i)
  {
    hide Shape;
  }

  lemma WaitingList(s: Sys, i: int)
    requires Sound(s) && 0 <= i < NSEM
    requires Sound(SetCount(s, i, s.sems[i].count - 1)) && Sound(Waiting(SetCount(s, i, s.sems[i].count - 1), i))
    ensures Kept(s, Waiting(SetCount(s, i, s.sems[i].count - 1), i), i, EMPTY, true)
  {
    hide Shape, Kept;
    QueueOf(s, i);
    ListKept(s, Waiting(SetCount(s, i, s.sems[i].count - 1), i), s.sems[i].queue, i, EMPTY, true);
  }

  /** The first n elements gone, or all of them. */
  function Skip<T>(l: seq<T>, n: nat): seq<T>
  {
    if n <= |l| then l[n..] else []
  }

  lemma Signal1Queue(s: Sys, i: int)
    requires Mid(s, EMPTY, EMPTY, 0) && Core(s) && 0 <= i < NSEM && s.sems[i].used
    ensures Kept(s, Signal1(s, i), i, EMPTY, true) && WaitersOf(Signal1(s, i), i) == Skip(WaitersOf(s, i), 1)
  {
    hide Shape, Kept, MsgsBut, SleepBut, SchedOK, HomeOK, ReadyOK, Readied, PrioOK, OneCurr;
    SignalInv(s, i);
    QueueOf(s, i);
    var s1 := SetCount(s, i, s.sems[i].count + 1);
    var q := s.sems[i].queue;
    assert CountOK(s, i);
    if s.sems[i].count < 0 {
      var p, s2 := First(s1, q), Popped(s1, q);
      ListKept(s, s2, q, i, EMPTY, true);
      ReadiedKept(s2, p);
      KeptWeaken(s2, Readied(s2, p), i, EMPTY, true);
      KeptTrans(s, s2, Readied(s2, p), i, EMPTY, true);
      KeptAt(s2, Readied(s2, p), i);
    } else {
      ListKept(s, s1, q, i, EMPTY, true);
    }
  }

  lemma {:induction false} SignalLoopQueue(s: Sys, i: int, n: nat)
    requires Mid(s, EMPTY, EMPTY, 0) && Core(s) && 0 <= i < NSEM && s.sems[i].used
    ensures var t := SignalLoop(s, i, n);
            && Kept(s, t, i, EMPTY, true) && WaitersOf(t, i) == Skip(WaitersOf(s, i), n)
               && t.sems[i] == s.sems[i].(count := s.sems[i].count + n)
    decreases n
  {
    hide Shape, Kept, Mid, Core, SchedOK, Signal1;
    CoreSound(s);
    if n == 0 {
      SameKept(s, s, EMPTY, true);
      KeptWeaken(s, s, i, EMPTY, true);
    } else {
      var s1 := Signal1(s, i);
      Signal1Queue(s, i);
      CoreSound(s1);
      SignalLoopQueue(s1, i, n - 1);
      KeptTrans(s, s1, SignalLoop(s1, i, n - 1), i, EMPTY, true);
    }
  }

  lemma CoreSound(s: Sys)
    requires Core(s)
    ensures Sound(s)
  {
  }

  lemma SignalledNQueue(s: Sys, i: int, n: nat)
    requires Inv(s) && 0 <= i < NSEM && s.sems[i].used
    ensures var t := SignalledN(s, i, n);
            && Kept(s, t, i, EMPTY, true) && WaitersOf(t, i) == Skip(WaitersOf(s, i), n)
               && t.sems[i] == s.sems[i].(count := s.sems[i].count + n)
  {
    hide Shape, Kept, MsgsBut, SemsBut, SleepBut, SchedOK, HomeOK, ReadyOK, PrioOK, OneCurr, Stop, SignalLoop;
    StartMid(s, EMPTY, 0);
    var s1 := SignalLoop(Start(s), i, n);
    SameKept(s, Start(s), EMPTY, true);
    KeptWeaken(s, Start(s), i, EMPTY, true);
    SignalLoopQueue(Start(s), i, n);
    KeptTrans(s, Start(s), s1, i, EMPTY, true);
    StopKept(s1);
    KeptWeaken(s1, Stop(s1), i, EMPTY, true);
    KeptTrans(s, s1, Stop(s1), i, EMPTY, true);
    KeptAt(s1, Stop(s1), i);
  }

  lemma ReleasedKept(s: Sys, i: int)
    requires Mid(s, EMPTY, i, 0) && Core(s) && 0 <= i < NSEM && s.lists.on[s.sems[i].queue] != []
    ensures Kept(s, Released(s, i), i, EMPTY, true)
  {
    hide Shape, Kept, MsgsBut, SemsBut, SleepBut, SchedOK, HomeOK, ReadyOK, Readied, PrioOK, OneCurr;
    var q := s.sems[i].queue;
    ReleaseInv(s, i);
    QueueOf(s, i);
    var p, s2 := First(s, q), Popped(s, q);
    ListKept(s, s2, q, i, EMPTY, true);
    ReadiedKept(s2, p);
    KeptWeaken(s2, Readied(s2, p), i, EMPTY, true);
    KeptTrans(s, s2, Readied(s2, p), i, EMPTY, true);
  }

  lemma {:induction false} ReleaseAllKept(s: Sys, i: int)
    requires Mid(s, EMPTY, i, 0) && Core(s) && 0 <= i < NSEM
    ensures Kept(s, ReleaseAll(s, i), i, EMPTY, true)
    decreases |s.lists.on[s.sems[i].queue]|
  {
    hide Shape, Kept, LooseBut, MsgsBut, SemsBut, SleepBut, SchedOK;
    CoreSound(s);
    if s.lists.on[s.sems[i].queue] == [] {
      SameKept(s, s, EMPTY, true);
      KeptWeaken(s, s, i, EMPTY, true);
    } else {
      ReleasedKept(s, i);
      ReleaseAllKept(Released(s, i), i);
      KeptTrans(s, Released(s, i), ReleaseAll(Released(s, i), i), i, EMPTY, true);
    }
  }

  lemma SetSemKept(s: Sys, i: int, v: Sem)
    requires Sound(s) && 0 <= i < NSEM && v.queue == s.sems[i].queue
    ensures Kept(s, s.(sems := s.sems[i := v]), i, EMPTY, true)
  {
    hide Shape, Kept;
    ListKept(s, s.(sems := s.sems[i := v]), s.sems[i].queue, i, EMPTY, true);
  }

  lemma {:induction false} DeleteLoopKept(s: Sys, i: int)
    requires DeleteReady(s, i)
    ensures Kept(s, DeleteLoop(s, i), i, EMPTY, true)
    decreases QueueLength(s, i)
  {
    hide Kept, Mid, Core, Released, DeleteLoop;
    CoreSound(s);
    DeleteStep(s, i);
    var s1 := SetCount(s, i, s.sems[i].count + 1);
    SetSemKept(s, i, s1.sems[i]);
    if s.sems[i].count >= 0 {
    } else {
      ReleasedKept(s1, i);
      KeptTrans(s, s1, Released(s1, i), i, EMPTY, true);
      DeleteLoopKept(Released(s1, i), i);
      KeptTrans(s, Released(s1, i), DeleteLoop(Released(s1, i), i), i, EMPTY, true);
    }
  }

  lemma ResetKept(s: Sys, i: int, n: nat)
    requires Inv(s) && 0 <= i < NSEM && s.sems[i].used
    ensures var t := ResetTo(s, i, n);
            Kept(s, t, i, EMPTY, true) && WaitersOf(t, i) == [] && t.sems[i] == s.sems[i].(count := n)
  {
    hide Shape, Kept, LooseBut, MsgsBut, SemsBut, SleepBut, SchedOK, ReleaseAll, Stop;
    StartMid(s, EMPTY, 0);
    OpenSem(Start(s), EMPTY, i, 0);
    CoreSound(s);
    CoreSound(Start(s));
    SameKept(s, Start(s), EMPTY, true);
    KeptWeaken(s, Start(s), i, EMPTY, true);
    var s1 := ReleaseAll(Start(s), i);
    ReleaseAllKept(Start(s), i);
    CoreSound(s1);
    KeptTrans(s, Start(s), s1, i, EMPTY, true);
    SetCountInv(s1, i, s1.sems[i].(count := n));
    SetSemKept(s1, i, s1.sems[i].(count := n));
    var s2 := SetCount(s1, i, n);
    KeptTrans(s, s1, s2, i, EMPTY, true);
    StopKept(s2);
    KeptWeaken(s2, Stop(s2), i, EMPTY, true);
    KeptTrans(s, s2, Stop(s2), i, EMPTY, true);
    KeptAt(s2, Stop(s2), i);
  }

  lemma DeletedKept(s: Sys, i: int)
    requires Inv(s) && 0 <= i < NSEM && s.sems[i].used
    ensures var t := Deleted(s, i);
            Kept(s, t, i, EMPTY, true) && WaitersOf(t, i) == [] && !t.sems[i].used
  {
    hide Shape, Kept, LooseBut, MsgsBut, SemsBut, SleepBut, SchedOK, DeleteLoop, Stop;
    InvSound(s);
    DeleteStart(s, i);
    var s0 := s.(sems := s.sems[i := s.sems[i].(used := false)]);
    CoreSound(s);
    SetSemKept(s, i, s0.sems[i]);
    CoreSound(Start(s0));
    SameKept(s0, Start(s0), EMPTY, true);
    KeptWeaken(s0, Start(s0), i, EMPTY, true);
    KeptTrans(s, s0, Start(s0), i, EMPTY, true);
    var s1 := DeleteLoop(Start(s0), i);
    DeleteLoopKept(Start(s0), i);
    CoreSound(s1);
    KeptTrans(s, Start(s0), s1, i, EMPTY, true);
    StopKept(s1);
    KeptWeaken(s1, Stop(s1), i, EMPTY, true);
    KeptTrans(s, s1, Stop(s1), i, EMPTY, true);
    KeptAt(s1, Stop(s1), i);
  }

  lemma UnwaitedQueue(s: Sys, p: int)
    requires Inv(s) && 0 < p < NPROC && s.procs[p].state == Wait
    ensures var i := s.procs[p].sem;
            && 0 <= i < NSEM && p in WaitersOf(s, i)
            && var t := Unwaited(s, p);
               && Kept(s, t, i, p, true) && t.sems[i] == s.sems[i].(count := s.sems[i].count + 1)
               && WaitersOf(t, i) == Drop(WaitersOf(s, i), IndexOf(WaitersOf(s, i), p))
  {
    hide Shape, Kept, LooseBut, MsgsBut, SemsBut, SleepBut, SchedOK;
    UnwaitMid(s, p);
    InvSound(s);
    var i := s.procs[p].sem;
    QueueOf(s, i);
    HomeHolds(s.lists, p);
    var t := Unwaited(s, p);
    InvSound(t);
    ListKept(s, t, s.sems[i].queue, i, p, true);
  }

  lemma InvSound(s: Sys)
    requires Inv(s)
    ensures Sound(s)
  {
  }

  lemma SemCreatedKept(s: Sys, n: nat, i: int)
    requires Inv(s) && 0 <= i < NSEM && s.sems[i].used
    ensures var t := SemCreated(s, n);
            t.sems[i] == s.sems[i] && WaitersOf(t, i) == WaitersOf(s, i) && t.procs == s.procs && t.lists == s.lists
                && t.sleepq == s.sleepq
  {
    hide Shape, LooseBut, MsgsBut, SemsBut, SleepBut, SchedOK, FindSem;
    InvSound(s);
    InvSound(SemCreated(s, n));
  }
}
