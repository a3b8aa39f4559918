// Fairness of the dispatcher: whoever stands in front of another on the ready list is not
// overtaken by it (system/resched.c, insert.c, ready.c).

module ReadyLaws {

  import opened Common
  import opened Queues
  import opened Delta
  import opened Sched
  import opened Calls
  import opened Procs
  import opened Kernel
  import opened KernelRun
  import opened Semaphores
  import opened SemaphoreLaws
  import opened SleepLaws

  /** Processes may have joined the ready list; nobody left it and nobody was dispatched. */
  ghost predicate Joined(s: Sys, t: Sys)
    requires Sound(s) && Sound(t)
  {
    t.curr == s.curr && forall a, b :: Before(ReadyList(s), a, b) ==> Before(ReadyList(t), a, b)
  }

  /** Nobody on the ready list was overtaken. */
  ghost predicate Fair(s: Sys, t: Sys)
    requires Sound(s) && Sound(t)
  {
    forall a, b :: Before(ReadyList(s), a, b) ==> NotOvertaken(t, a, b)
  }

  /** The later one has not got the processor, and is behind if both are still there. */
  ghost predicate NotOvertaken(t: Sys, a: int, b: int)
    requires Sound(t)
  {
    t.curr != b && (a in ReadyList(t) && b in ReadyList(t) ==> Before(ReadyList(t), a, b))
  }

  lemma JoinedFair(s: Sys, m: Sys, t: Sys)
    requires Sound(s) && Sound(m) && Sound(t) && Joined(s, m) && Fair(m, t)
    ensures Fair(s, t)
  {
    hide Sound, Before, NotOvertaken;
  }

  lemma JoinedTrans(s: Sys, m: Sys, t: Sys)
    requires Sound(s) && Sound(m) && Sound(t) && Joined(s, m) && Joined(m, t)
    ensures Joined(s, t)
  {
    hide Sound, Before;
  }

  lemma SameJoined(s: Sys, t: Sys)
    requires Sound(s) && Sound(t) && ReadyList(t) == ReadyList(s) && t.curr == s.curr
    ensures Joined(s, t)
  {
    hide Sound, Before;
  }

  /** Joining alone is fair: whoever is on the ready list is not the current process. */
  lemma OnlyJoined(s: Sys, t: Sys)
    requires LooseBut(s, EMPTY) && Sound(t) && Joined(s, t) && s.procs[s.curr].state == Curr
    ensures Fair(s, t)
  {
    hide Shape, PrioOK, ReadyOK, OneCurr;
    HeadIds(s);
    forall a, b | Before(ReadyList(s), a, b)
      ensures NotOvertaken(t, a, b)
    {
      OnHome(s.lists, s.readylist, b);
      assert HomeOK(s, s.curr);
    }
  }

  lemma PutBefore(l: seq<int>, i: int, p: int, a: int, b: int)
    requires 0 <= i <= |l| && Before(l, a, b)
    ensures Before(Put(l, i, p), a, b)
  {
    var x, y :| 0 <= x < y < |l| && l[x] == a && l[y] == b;
    assert Put(l, i, p)[if x < i then x else x + 1] == a && Put(l, i, p)[if y < i then y else y + 1] == b;
  }

  lemma MakeReadyJoined(s: Sys, p: int)
    requires Sound(s) && 0 <= p < NPROC && s.lists.home[p] == EMPTY
    ensures Sound(MakeReady(s, p)) && Joined(s, MakeReady(s, p))
  {
    hide Shape, Put;
    PutReady(s, p);
    InRange(s, s.readylist);
    var i := InsertPos(ReadyList(s), s.lists.key, s.procs[p].prio, 0);
    forall a, b | Before(ReadyList(s), a, b)
      ensures Before(ReadyList(MakeReady(s, p)), a, b)
    {
      PutBefore(ReadyList(s), i, p, a, b);
    }
  }

  /** A process made ready stands behind all of its own or a higher priority and in front of all
      of a lower one. */
  lemma BehindItsEquals(s: Sys, p: int, x: int)
    requires LooseBut(s, p) && 0 <= p < NPROC && x in ReadyList(s)
    ensures Sound(MakeReady(s, p)) && 0 <= x < NPROC
    ensures if s.procs[x].prio >= s.procs[p].prio then Before(ReadyList(MakeReady(s, p)), x, p)
            else Before(ReadyList(MakeReady(s, p)), p, x)
  {
    hide Shape, NoDup, Put;
    PutReady(s, p);
    InRange(s, s.readylist);
    OnHome(s.lists, s.readylist, x);
    var l, k := ReadyList(s), s.procs[p].prio;
    var i := InsertPos(l, s.lists.key, k, 0);
    var j := IndexOf(l, x);
    PutPlaces(l, i, p, j);
    if j >= i && j > 0 {
      assert s.lists.key[l[i]] >= s.lists.key[l[j]] by { DescendingAt(s, i, j); }
    }
  }

  lemma DescendingAt(s: Sys, i: int, j: int)
    requires Sound(s) && ReadyOK(s) && 0 <= i <= j < |ReadyList(s)|
    ensures |s.lists.key| == NPROC && 0 <= ReadyList(s)[i] < NPROC && 0 <= ReadyList(s)[j] < NPROC
    ensures s.lists.key[ReadyList(s)[i]] >= s.lists.key[ReadyList(s)[j]]
  {
    HomeOfIndex(s.lists, s.readylist, i);
    HomeOfIndex(s.lists, s.readylist, j);
  }

  lemma PutPlaces(l: seq<int>, i: int, p: int, j: int)
    requires 0 <= i <= |l| && 0 <= j < |l|
    ensures if j < i then Before(Put(l, i, p), l[j], p) else Before(Put(l, i, p), p, l[j])
  {
    assert Put(l, i, p)[i] == p && Put(l, i, p)[if j < i then j else j + 1] == l[j];
  }

  /** The dispatcher takes the first. */
  lemma DispatchFair(s: Sys)
    requires LooseBut(s, EMPTY) && ReadyList(s) != [] && Sound(Dispatched(s))
    ensures Fair(s, Dispatched(s)) && Dispatched(s).curr == ReadyList(s)[0]
  {
    hide Shape, Drop, NoDup;
    HomeOfIndex(s.lists, s.readylist, 0);
    ListNoDup(s.lists, s.readylist);
    forall a, b | Before(ReadyList(s), a, b)
      ensures NotOvertaken(Dispatched(s), a, b)
    {
      DropFirst(ReadyList(s), a, b);
    }
  }

  lemma DropFirst(l: seq<int>, a: int, b: int)
    requires NoDup(l) && Before(l, a, b)
    ensures b != l[0] && (a in Drop(l, 0) ==> Before(Drop(l, 0), a, b))
  {
    var x, y :| 0 <= x < y < |l| && l[x] == a && l[y] == b;
    DropOrder(l, 0, x, y);
  }

  lemma ReschedFair(s: Sys)
    requires LooseBut(s, EMPTY) && (s.ndefers > 0 ==> s.procs[s.curr].state == Curr)
    ensures CanRun(s) && Sound(Resched(s)) && Fair(s, Resched(s)) && (s.ndefers > 0 ==> Joined(s, Resched(s)))
  {
    hide Shape, PrioOK, ReadyOK, Fair, Joined, HomeOK, Dispatched, MakeReady;
    ReschedOK(s);
    if s.ndefers > 0 {
      SameJoined(s, Resched(s));
      OnlyJoined(s, Resched(s));
    } else if s.procs[s.curr].state == Curr {
      if s.procs[s.curr].prio > FirstKey(s) {
        SameJoined(s, s);
        OnlyJoined(s, s);
      } else {
        CurrLoose(s);
        ReadyLoose(s, s.curr);
        MakeReadyJoined(s, s.curr);
        DispatchFair(MakeReady(s, s.curr));
        JoinedFair(s, MakeReady(s, s.curr), Resched(s));
      }
    } else {
      DispatchFair(s);
    }
  }

  lemma ReadiedFair(s: Sys, p: int)
    requires LooseBut(s, p) && 0 <= p < NPROC && s.procs[p].state != Free && s.procs[s.curr].state == Curr
             && p != s.curr
    ensures Fair(s, Readied(s, p)) && (s.ndefers > 0 ==> Joined(s, Readied(s, p)))
  {
    hide Shape, PrioOK, ReadyOK, Fair, Joined, HomeOK, Resched, MakeReady;
    ReadyLoose(s, p);
    MakeReadyJoined(s, p);
    MakeFields(s, p);
    ReschedFair(MakeReady(s, p));
    JoinedFair(s, MakeReady(s, p), Readied(s, p));
    if s.ndefers > 0 {
      JoinedTrans(s, MakeReady(s, p), Readied(s, p));
    }
  }

  lemma MakeFields(s: Sys, p: int)
    requires Sound(s) && 0 <= p < NPROC && p != s.curr
    ensures MakeReady(s, p).ndefers == s.ndefers && MakeReady(s, p).curr == s.curr
            && MakeReady(s, p).procs[s.curr] == s.procs[s.curr]
  {
  }

  // ---- calls ---------------------------------------------------------------------------------------

  /** First something that does not touch the ready list, then resched. */
  lemma ThenResched(s: Sys, m: Sys)
    requires Sound(s) && LooseBut(m, EMPTY) && (m.ndefers > 0 ==> m.procs[m.curr].state == Curr)
    requires m.readylist == s.readylist && ReadyList(m) == ReadyList(s) && m.curr == s.curr
    ensures CanRun(m) && Sound(Resched(m)) && Fair(s, Resched(m))
  {
    hide Shape, Fair, Joined, LooseBut, Resched;
    LooseSound(m, EMPTY);
    ReschedFair(m);
    SameJoined(s, m);
    JoinedFair(s, m, Resched(m));
  }

  /** First something that does not touch the ready list, then ready. */
  lemma ThenReadied(s: Sys, m: Sys, p: int)
    requires Sound(s) && LooseBut(m, p) && 0 <= p < NPROC && m.procs[p].state != Free && m.procs[m.curr].state == Curr
             && p != m.curr
    requires m.readylist == s.readylist && ReadyList(m) == ReadyList(s) && m.curr == s.curr
    ensures Fair(s, Readied(m, p)) && (m.ndefers > 0 ==> Joined(s, Readied(m, p)))
  {
    hide Shape, Fair, Joined, LooseBut, Readied;
    LooseSound(m, p);
    ReadiedFair(m, p);
    LooseSound(Readied(m, p), EMPTY);
    SameJoined(s, m);
    JoinedFair(s, m, Readied(m, p));
    if m.ndefers > 0 {
      JoinedTrans(s, m, Readied(m, p));
    }
  }

  lemma Signal1Fair(s: Sys, i: int)
    requires Mid(s, EMPTY, EMPTY, 0) && Core(s) && 0 <= i < NSEM && s.sems[i].used
    ensures Fair(s, Signal1(s, i)) && (s.ndefers > 0 ==> Joined(s, Signal1(s, i)))
  {
    hide Shape, Fair, Joined, MsgsBut, SemsBut, SleepBut, SchedOK, HomeOK, ReadyOK, Readied, PrioOK, OneCurr, Kept;
    SignalInv(s, i);
    QueueOf(s, i);
    var s1 := SetCount(s, i, s.sems[i].count + 1);
    if s.sems[i].count < 0 {
      var q := s.sems[i].queue;
      ThenReadied(s, Popped(s1, q), First(s1, q));
    } else {
      SameJoined(s, s1);
      OnlyJoined(s, s1);
    }
  }

  lemma {:induction false} SignalLoopFair(s: Sys, i: int, n: nat)
    requires Mid(s, EMPTY, EMPTY, 0) && Core(s) && 0 <= i < NSEM && s.sems[i].used && s.ndefers > 0
    ensures Joined(s, SignalLoop(s, i, n))
    decreases n
  {
    hide Shape, Mid, Core, SchedOK, Signal1, Joined;
    CoreSound(s);
    if n == 0 {
      SameJoined(s, s);
    } else {
      Signal1Fair(s, i);
      CoreSound(Signal1(s, i));
      SignalLoopFair(Signal1(s, i), i, n - 1);
      CoreSound(SignalLoop(s, i, n));
      JoinedTrans(s, Signal1(s, i), SignalLoop(s, i, n));
    }
  }

  /** After deferral the ready list may be dispatched from. */
  lemma StopFair(s: Sys, m: Sys)
    requires Sound(s) && Core(m) && Joined(s, m)
    ensures Sound(Stop(m)) && Fair(s, Stop(m))
  {
    hide Shape, Fair, Joined, Resched;
    StopKept(m);
    if m.ndefers <= 0 {
      SameJoined(m, m);
      OnlyJoined(m, m);
      JoinedFair(s, m, m);
    } else {
      var m1 := m.(ndefers := m.ndefers - 1);
      FrameLoose(m, m1, EMPTY);
      SameJoined(m, m1);
      JoinedTrans(s, m, m1);
      if m1.ndefers == 0 && m.attempt {
        ReschedFair(m1);
        JoinedFair(s, m1, Resched(m1));
      } else {
        SameJoined(m1, m1);
        OnlyJoined(m1, m1);
        JoinedFair(s, m1, m1);
      }
    }
  }

  lemma ReleasedJoined(s: Sys, i: int)
    requires Mid(s, EMPTY, i, 0) && Core(s) && 0 <= i < NSEM && s.lists.on[s.sems[i].queue] != [] && s.ndefers > 0
    ensures Joined(s, Released(s, i))
  {
    hide Shape, Fair, Joined, MsgsBut, SemsBut, SleepBut, SchedOK, HomeOK, ReadyOK, Readied, PrioOK, OneCurr;
    var q := s.sems[i].queue;
    ReleaseInv(s, i);
    QueueOf(s, i);
    ThenReadied(s, Popped(s, q), First(s, q));
  }

  lemma {:induction false} ReleaseAllJoined(s: Sys, i: int)
    requires Mid(s, EMPTY, i, 0) && Core(s) && 0 <= i < NSEM && s.ndefers > 0
    ensures Joined(s, ReleaseAll(s, i))
    decreases |s.lists.on[s.sems[i].queue]|
  {
    hide Shape, Joined, LooseBut, MsgsBut, SemsBut, SleepBut, SchedOK;
    CoreSound(s);
    if s.lists.on[s.sems[i].queue] == [] {
      SameJoined(s, s);
    } else {
      ReleasedJoined(s, i);
      CoreSound(Released(s, i));
      ReleaseAllJoined(Released(s, i), i);
      CoreSound(ReleaseAll(Released(s, i), i));
      JoinedTrans(s, Released(s, i), ReleaseAll(Released(s, i), i));
    }
  }

  lemma {:induction false} DeleteLoopJoined(s: Sys, i: int)
    requires DeleteReady(s, i) && s.ndefers > 0
    ensures Joined(s, DeleteLoop(s, i))
    decreases QueueLength(s, i)
  {
    hide Joined, Mid, Core, Released, DeleteLoop, Sound;
    CoreSound(s);
    DeleteStep(s, i);
    var s1 := SetCount(s, i, s.sems[i].count + 1);
    CoreSound(s1);
    SameJoined(s, s1);
    if s.sems[i].count >= 0 {
    } else {
      var u := Released(s1, i);
      ReleasedJoined(s1, i);
      CoreSound(u);
      JoinedTrans(s, s1, u);
      DeleteLoopJoined(u, i);
      CoreSound(DeleteLoop(u, i));
      JoinedTrans(s, u, DeleteLoop(u, i));
    }
  }

  lemma {:induction false} WakeLoopJoined(s: Sys)
    requires WakeReady(s) && s.ndefers > 0
    ensures Sound(WakeLoop(s)) && Joined(s, WakeLoop(s))
    decreases if Sound(s) then |Sleepers(s)| else 0
  {
    hide Mid, Core, Sound, Joined, WakeLoop;
    WakingFacts(s);
    if Sleepers(s) != [] && s.lists.key[Sleepers(s)[0]] <= 0 {
      var u := WokenFirst(s);
      CoreSound(u);
      WakeLoopJoined(u);
      JoinedTrans(s, u, WakeLoop(u));
    } else {
      SameJoined(s, s);
    }
  }

  /** One turn of the loop of wakeup, seen from the ready list. */
  lemma WokenFirst(s: Sys) returns (u: Sys)
    requires WakeReady(s) && Sleepers(s) != [] && 0 <= Sleepers(s)[0] < |s.lists.key|
             && s.lists.key[Sleepers(s)[0]] <= 0 && s.ndefers > 0
    ensures WakeReady(u) && WakeLoop(s) == WakeLoop(u) && |Sleepers(u)| < |Sleepers(s)| && u.ndefers > 0 && Joined(s, u)
  {
    hide Shape, Fair, Joined, MsgsBut, SemsBut, SleepBut, SchedOK, HomeOK, ReadyOK, PrioOK, OneCurr, Readied, KeysOn;
    PopSleepMid(s);
    var p, s1 := First(s, s.sleepq), Popped(s, s.sleepq);
    WokenIs(s1, p, EMPTY, 0);
    u := Readied(s1, p);
    ThenReadied(s, s1, p);
    WakeShrinks(s);
  }

  lemma WakenedFair(s: Sys)
    requires WakeReady(s)
    ensures Sound(Wakened(s)) && Fair(s, Wakened(s))
  {
    hide Shape, Mid, LooseBut, SchedOK, WakeLoop, Stop, Joined, Fair;
    CoreSound(s);
    WakeStart(s);
    var s2 := Start(s);
    CoreSound(s2);
    SameJoined(s, s2);
    WakeLoopJoined(s2);
    JoinedTrans(s, s2, WakeLoop(s2));
    StopFair(s, WakeLoop(s2));
  }

  lemma TickedFair(s: Sys)
    requires Inv(s)
    ensures Sound(Ticked(s)) && Fair(s, Ticked(s))
  {
    hide Shape, MsgsBut, SemsBut, SleepBut, SchedOK, HomeOK, ReadyOK, PrioOK, OneCurr, Resched, Wakened, Joined, Fair;
    ShapeSizes(s.lists);
    if s.lists.on[s.sleepq] == [] {
      ThenResched(s, s);
    } else {
      TickMid(s);
      var s1 := Ticked1(s);
      ShapeSizes(s1.lists);
      SameJoined(s, s1);
      if s1.lists.key[First(s, s.sleepq)] <= 0 {
        WakenedFair(s1);
        JoinedFair(s, s1, Wakened(s1));
      } else {
        ThenResched(s, s1);
      }
    }
  }

  lemma SemaphoreFair(s: Sys, c: Call)
    requires Inv(s) && CallOK(s, c) && OnSemaphore(c) && !c.SemCreateCall? && SemInUse(s, c.sem)
    ensures Sound(s) && Sound(Apply(s, c)) && Fair(s, Apply(s, c))
  {
    hide Shape, MsgsBut, SemsBut, SleepBut, SchedOK, HomeOK, ReadyOK, PrioOK, OneCurr, Joined, Fair, Resched, Waiting,
        Signal1, SignalLoop, ReleaseAll, DeleteLoop, Stop;
    InvSound(Apply(s, c));
    SameJoined(s, s);
    OnlyJoined(s, s);
    var i := c.sem;
    match c {
      case WaitCall(_) => WaitedFair(s, i);
      case SignalCall(_) => Signal1Fair(s, i);
      case SignalNCall(_, n) =>
        if n >= 0 {
          StartMid(s, EMPTY, 0);
          SameJoined(s, Start(s));
          SignalLoopFair(Start(s), i, n);
          JoinedTrans(s, Start(s), SignalLoop(Start(s), i, n));
          StopFair(s, SignalLoop(Start(s), i, n));
        }
      case SemResetCall(_, n) =>
        if n >= 0 {
          ResetFair(s, i, n);
        }
      case SemDeleteCall(_) => DeletedFair(s, i);
    }
  }

  lemma WaitedFair(s: Sys, i: int)
    requires Inv(s) && 0 <= i < NSEM && s.sems[i].used
             && (s.sems[i].count <= 0 ==> s.curr != NULLPROC && s.ndefers == 0)
    ensures Sound(s) && Sound(Waited(s, i)) && Fair(s, Waited(s, i))
  {
    hide Shape, MsgsBut, SemsBut, SleepBut, SchedOK, HomeOK, ReadyOK, PrioOK, OneCurr, Joined, Fair, Resched;
    WaitInv(s, i);
    var s1 := SetCount(s, i, s.sems[i].count - 1);
    if s.sems[i].count <= 0 {
      OpenSem(s, EMPTY, i, 0);
      SemMid(s, EMPTY, i, 0, s1.sems[i]);
      WaitingMid(s1, i, 0);
      QueueOf(s1, i);
      ThenResched(s, Waiting(s1, i));
    } else {
      SameJoined(s, s1);
      OnlyJoined(s, s1);
    }
  }

  lemma ResetFair(s: Sys, i: int, n: nat)
    requires Inv(s) && 0 <= i < NSEM && s.sems[i].used
    ensures Sound(s) && Sound(ResetTo(s, i, n)) && Fair(s, ResetTo(s, i, n))
  {
    hide Shape, LooseBut, MsgsBut, SemsBut, SleepBut, SchedOK, Joined, Fair, ReleaseAll, Stop;
    InvSound(s);
    StartMid(s, EMPTY, 0);
    OpenSem(Start(s), EMPTY, i, 0);
    CoreSound(Start(s));
    SameJoined(s, Start(s));
    var s1 := ReleaseAll(Start(s), i);
    CoreSound(s1);
    ReleaseAllJoined(Start(s), i);
    JoinedTrans(s, Start(s), s1);
    SetCountInv(s1, i, s1.sems[i].(count := n));
    var s2 := SetCount(s1, i, n);
    CoreSound(s2);
    SameJoined(s1, s2);
    JoinedTrans(s, s1, s2);
    StopFair(s, s2);
  }

  lemma DeletedFair(s: Sys, i: int)
    requires Inv(s) && 0 <= i < NSEM && s.sems[i].used
    ensures Sound(s) && Sound(Deleted(s, i)) && Fair(s, Deleted(s, i))
  {
    hide Shape, LooseBut, MsgsBut, SemsBut, SleepBut, SchedOK, Joined, Fair, DeleteLoop, Stop;
    InvSound(s);
    DeleteStart(s, i);
    var s0 := s.(sems := s.sems[i := s.sems[i].(used := false)]);
    CoreSound(Start(s0));
    SameJoined(s, Start(s0));
    DeleteLoopJoined(Start(s0), i);
    var s1 := DeleteLoop(Start(s0), i);
    CoreSound(s1);
    JoinedTrans(s, Start(s0), s1);
    StopFair(s, s1);
  }

  lemma SentFair(s: Sys, p: int, msg: int)
    requires Inv(s) && !BadPid(s, p) && !s.procs[p].hasmsg
    ensures Sound(s) && Sound(Sent(s, p, msg)) && Fair(s, Sent(s, p, msg))
  {
    hide Shape, Readied, MsgsBut, SemsBut, SleepBut, SchedOK, HomeOK, ReadyOK, PrioOK, OneCurr, Joined, Fair;
    SentInv(s, p, msg);
    var s1 := SetProc(s, p, s.procs[p].(msg := msg, hasmsg := true));
    if s.procs[p].state == Recv {
      ThenReadied(s, s1, p);
    } else if s.procs[p].state == RecTim {
      SleeperHome(s, p);
      ThenReadied(s, Unslept(s1, p), p);
    } else {
      SameJoined(s, s1);
      OnlyJoined(s, s1);
    }
  }

  lemma UnreadiedFair(s: Sys, p: int, st: PState)
    requires Inv(s) && 0 < p < NPROC && s.procs[p].state == Ready && st in {Free, Susp}
    ensures Sound(s) && Fair(s, Unreadied(s, p, st))
  {
    hide Shape, MsgsBut, SemsBut, SleepBut, SchedOK, PrioOK, OneCurr, ReadyOK, Drop;
    UnreadyMid(s, p, st);
    var l := ReadyList(s);
    ListNoDup(s.lists, s.readylist);
    HomeHolds(s.lists, p);
    HeadIds(s);
    var i := IndexOf(l, p);
    forall a, b | Before(l, a, b)
      ensures NotOvertaken(Unreadied(s, p, st), a, b)
    {
      OnHome(s.lists, s.readylist, b);
      assert HomeOK(s, s.curr);
      DropKeepsOrder(l, i, a, b);
    }
  }

  lemma DropKeepsOrder(l: seq<int>, i: int, a: int, b: int)
    requires NoDup(l) && 0 <= i < |l| && Before(l, a, b)
    ensures a in Drop(l, i) && b in Drop(l, i) ==> Before(Drop(l, i), a, b)
  {
    var x, y :| 0 <= x < y < |l| && l[x] == a && l[y] == b;
    DropOrder(l, i, x, y);
  }

  lemma SleepingFair(s: Sys, d: int, st: PState, pl: Place)
    requires Inv(s) && s.curr != NULLPROC && 0 <= d <= MAXKEY && s.ndefers == 0
    requires (st == Sleep && pl == Outside) || (st == RecTim && pl == InRecvTime && !s.procs[s.curr].hasmsg)
    ensures var u := Sleeping(s, d, st, pl);
            Sound(s) && Sound(u) && CanRun(u) && Sound(Resched(u)) && Fair(s, Resched(u))
  {
    hide Shape, Resched, MsgsBut, SemsBut, SleepBut, SchedOK, HomeOK, ReadyOK, PrioOK, OneCurr, Joined, Fair, Keys;
    SleepingMid(s, d, st, pl);
    ThenResched(s, Sleeping(s, d, st, pl));
  }

  lemma BecameFair(s: Sys, pr: Proc, pl: Place)
    requires Inv(s) && pr.state in {Free, Curr, Recv, Susp} && pr.prio == s.procs[s.curr].prio
    requires s.curr == NULLPROC ==> pr.state == Curr
    requires pr.state == Recv ==> pl == InReceive && !pr.hasmsg
    requires pl == InReceive && pr.state != Free ==> pr.hasmsg || pr.state == Recv
    requires s.ndefers > 0 ==> pr.state == Curr
    ensures var u := Became(s, pr, pl);
            Sound(s) && Sound(u) && CanRun(u) && Sound(Resched(u)) && Fair(s, Resched(u)) && Fair(s, u)
  {
    hide Shape, Resched, MsgsBut, SemsBut, SleepBut, SchedOK, HomeOK, ReadyOK, PrioOK, OneCurr, Joined, Fair;
    BecameMid(s, pr, pl);
    ThenResched(s, Became(s, pr, pl));
    SameJoined(s, Became(s, pr, pl));
    OnlyJoined(s, Became(s, pr, pl));
  }

  lemma RemovedFair(s: Sys, p: int)
    requires Inv(s) && 0 < p < NPROC && (p == s.curr ==> s.ndefers == 0)
    ensures Sound(s) && Sound(Removed(s, p)) && Fair(s, Removed(s, p))
  {
    hide Shape, MsgsBut, SemsBut, SleepBut, SchedOK, HomeOK, ReadyOK, PrioOK, OneCurr, Joined, Fair, Unreadied, Resched;
    InvSound(Removed(s, p));
    if s.procs[p].state == Curr {
      CurrIs(s, p);
      BecameFair(s, s.procs[p].(state := Free), Outside);
    } else if s.procs[p].state == Ready {
      UnreadiedFair(s, p, Free);
    } else {
      RemovedList(s, p);
      SameJoined(s, Removed(s, p));
      OnlyJoined(s, Removed(s, p));
    }
  }

  lemma RemovedList(s: Sys, p: int)
    requires Inv(s) && 0 < p < NPROC && s.procs[p].state !in {Curr, Ready} && Sound(Removed(s, p))
    ensures Sound(s) && Removed(s, p).readylist == s.readylist && Removed(s, p).curr == s.curr
            && ReadyList(Removed(s, p)) == ReadyList(s)
  {
    hide Shape, MsgsBut, SemsBut, SleepBut, SchedOK, ReadyOK, PrioOK, OneCurr, Drop;
    HeadIds(s);
    assert HomeOK(s, p);
    if s.procs[p].state == Wait {
      UnwaitMid(s, p);
      QueueOf(s, s.procs[p].sem);
    }
  }

  /** Whatever is called, nobody on the ready list is overtaken by somebody behind it. */
  lemma NobodyOvertaken(s: Sys, c: Call)
    requires Inv(s) && CallOK(s, c)
    ensures Sound(s) && Sound(Apply(s, c)) && Fair(s, Apply(s, c))
  {
    hide Shape, MsgsBut, SemsBut, SleepBut, SchedOK, HomeOK, ReadyOK, PrioOK, OneCurr, Joined, Fair, Resched, Sent,
        Stop, Removed, Ticked, Sleeping, Unreadied;
    InvSound(Apply(s, c));
    SameJoined(s, s);
    OnlyJoined(s, s);
    if OnSemaphore(c) {
      if c.SemCreateCall? {
        SameJoined(s, Apply(s, c));
        OnlyJoined(s, Apply(s, c));
      } else if SemInUse(s, c.sem) {
        SemaphoreFair(s, c);
      }
    } else {
      ProcessFair(s, c);
    }
  }

  lemma ProcessFair(s: Sys, c: Call)
    requires Inv(s) && CallOK(s, c) && !OnSemaphore(c)
    ensures Sound(s) && Sound(Apply(s, c)) && Fair(s, Apply(s, c))
  {
    hide Shape, MsgsBut, SemsBut, SleepBut, SchedOK, HomeOK, ReadyOK, PrioOK, OneCurr, Joined, Fair, Resched, Sent,
        Stop, Removed, Ticked, Sleeping, Unreadied;
    InvSound(Apply(s, c));
    SameJoined(s, s);
    OnlyJoined(s, s);
    BecameFair(s, s.procs[s.curr].(hasmsg := false), Outside);
    match c
    case SleepCall(d) =>
      if d > 0 {
        SleepingFair(s, d, Sleep, Outside);
      } else {
        ThenResched(s, s);
      }
    case YieldCall => ThenResched(s, s);
    case ReceiveCall =>
      if !s.procs[s.curr].hasmsg {
        BecameFair(s, s.procs[s.curr].(state := Recv), InReceive);
      }
    case ReceiveRest =>
    case RecvTimeCall(d) =>
      if d >= 0 && !s.procs[s.curr].hasmsg {
        SleepingFair(s, d, RecTim, InRecvTime);
      }
    case RecvTimeRest =>
    case RecvClrCall =>
    case SendCall(p, m) =>
      if !BadPid(s, p) && !s.procs[p].hasmsg {
        SentFair(s, p, m);
      }
    case SuspendCall(p) =>
      if !BadPid(s, p) && p != NULLPROC {
        if s.procs[p].state == Ready {
          UnreadiedFair(s, p, Susp);
        } else if s.procs[p].state == Curr {
          SuspendCurr(s, p);
          BecameFair(s, s.procs[s.curr].(state := Susp), Outside);
        }
      }
    case ResumeCall(p) =>
      if !BadPid(s, p) && s.procs[p].state == Susp {
        ResumeMid(s, p);
        ThenReadied(s, s, p);
      }
    case CreateCall(g, prio) =>
      SameJoined(s, Apply(s, c));
      OnlyJoined(s, Apply(s, c));
    case KillCall(p) =>
      if !BadPid(s, p) && p != NULLPROC {
        var parent := s.procs[p].parent;
        if !BadPid(s, parent) && !s.procs[parent].hasmsg {
          SentFair(s, parent, p);
        }
      }
    case KillRest(p) => RemovedFair(s, p);
    case DeferCall =>
      SameJoined(s, Start(s));
      OnlyJoined(s, Start(s));
    case UndeferCall => StopFair(s, s);
    case Tick => TickedFair(s);
  }
}
