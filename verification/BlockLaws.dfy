// Why the null process may not block, and nobody while rescheduling is deferred: the calls do not
// check it, and afterwards no process that is current would be running (system/resched.c,
// system/wait.c, system/sleep.c, system/receive.c, system/recvtime.c, system/suspend.c, system/kill.c).

module BlockLaws {

  import opened Common
  import opened Queues
  import opened Delta
  import opened Sched
  import opened Calls
  import opened Procs
  import opened Kernel
  import opened KernelRun
  import opened Semaphores
  import opened RunLaws
  import opened ZeroWait

  /** The current process of s has given up the processor, and resched is about to be called. */
  ghost predicate GaveUp(s: Sys, t: Sys)
    requires Sound(s)
  {
    && Sound(t) && t.curr == s.curr && t.procs[t.curr].state != Curr && t.ndefers == s.ndefers
    && t.readylist == s.readylist && ReadyList(t) == ReadyList(s)
    && forall p :: 0 <= p < NPROC && p != s.curr ==> t.procs[p] == s.procs[p]
  }

  /** resched finds somebody to dispatch, and then the current process is one that runs. */
  ghost predicate RunsOn(t: Sys)
  {
    Sound(t) && CanRun(t) && var u := Resched(t); 0 <= u.curr < |u.procs| && u.procs[u.curr].state == Curr
  }

  /** That is so exactly when rescheduling is not deferred and somebody is ready; somebody is ready
      unless it is the null process that gave up. */
  lemma WhoMayGiveUp(s: Sys, t: Sys)
    requires Inv(s) && Sound(s) && GaveUp(s, t)
    ensures RunsOn(t) <==> s.ndefers == 0 && ReadyList(s) != []
    ensures s.curr != NULLPROC ==> ReadyList(s) != []
  {
    hide Shape, Inv;
    if s.curr != NULLPROC {
      SomeoneElse(s);
    }
    if ReadyList(s) != [] {
      HomeOfIndex(t.lists, t.readylist, 0);
    }
  }

  /** It has given up the processor, and nobody is left to run. */
  ghost predicate Stuck(s: Sys, t: Sys)
    requires Sound(s)
  {
    GaveUp(s, t) && !RunsOn(t)
  }

  lemma CurrOnNoList(s: Sys)
    requires Inv(s)
    ensures Sound(s) && |s.lists.home| == NPROC && s.lists.home[s.curr] == EMPTY && s.procs[s.curr].state == Curr
  {
    assert HomeOK(s, s.curr);
  }

  /** wait on a semaphore without a count. */
  lemma WhoMayWait(s: Sys, i: int)
    requires Inv(s) && 0 <= i < NSEM && s.sems[i].used && s.sems[i].count <= 0
    ensures Sound(s) && Sound(SetCount(s, i, s.sems[i].count - 1))
    ensures var t := Waiting(SetCount(s, i, s.sems[i].count - 1), i);
            GaveUp(s, t) && (RunsOn(t) <==> s.ndefers == 0 && ReadyList(s) != [])
                && (s.curr != NULLPROC ==> ReadyList(s) != [])
  {
    hide SemsBut, SleepBut, MsgsBut, Shape, PrioOK, ReadyOK, SchedOK, NoDup, RunsOn;
    CurrOnNoList(s);
    var s1 := SetCount(s, i, s.sems[i].count - 1);
    assert Sound(s1);
    QueueOf(s1, i);
    var q := s1.sems[i].queue;
    PutShape(s1.lists, q, |s1.lists.on[q]|, s1.curr);
    assert Sound(Waiting(s1, i));
    WhoMayGiveUp(s, Waiting(s1, i));
  }

  /** sleepms, and recvtime with no message there. */
  lemma WhoMaySleep(s: Sys, d: int, st: PState, pl: Place)
    requires Inv(s) && st in {Sleep, RecTim}
    ensures Sound(s)
    ensures var t := Sleeping(s, d, st, pl);
            GaveUp(s, t) && (RunsOn(t) <==> s.ndefers == 0 && ReadyList(s) != [])
                && (s.curr != NULLPROC ==> ReadyList(s) != [])
  {
    hide SemsBut, SleepBut, MsgsBut, Shape, PrioOK, ReadyOK, SchedOK, NoDup, RunsOn;
    CurrOnNoList(s);
    InRange(s, s.sleepq);
    var l, key, p := s.lists.on[s.sleepq], s.lists.key, s.curr;
    var (i, k) := DeltaPos(l, key, d, 0);
    PutShape(s.lists, s.sleepq, i, p);
    KeysShape(PutAt(s.lists, s.sleepq, i, p), Keys(l, key, i, p, k));
    var t := Sleeping(s, d, st, pl);
    assert Sound(t);
    WhoMayGiveUp(s, t);
  }

  lemma KeysShape(s: Lists, key: seq<int>)
    requires Shape(s) && |key| == |s.key|
    ensures Shape(s.(key := key))
  {
  }

  /** receive with no message there; a process that suspends or kills itself. */
  lemma WhoMayStop(s: Sys, st: PState, pl: Place)
    requires Inv(s) && st in {Recv, Susp, Free}
    ensures Sound(s)
    ensures var t := Became(s, s.procs[s.curr].(state := st), pl);
            GaveUp(s, t) && (RunsOn(t) <==> s.ndefers == 0 && ReadyList(s) != [])
                && (s.curr != NULLPROC ==> ReadyList(s) != [])
  {
    hide SemsBut, SleepBut, MsgsBut, Shape, PrioOK, ReadyOK, SchedOK, NoDup, RunsOn;
    CurrOnNoList(s);
    var t := Became(s, s.procs[s.curr].(state := st), pl);
    assert Sound(t);
    WhoMayGiveUp(s, t);
  }

  // ---- inputs --------------------------------------------------------------------------------------

  /** Nobody is left to run if the current process sleeps, receives with or without a limit,
      suspends or kills itself, or waits on a semaphore without a count. */
  ghost predicate NothingLeft(s: Sys)
    requires Sound(s)
  {
    && Stuck(s, Sleeping(s, 1, Sleep, Outside)) && Stuck(s, Sleeping(s, 1, RecTim, InRecvTime))
    && (forall st, pl :: st in {Recv, Susp, Free} ==> Stuck(s, Became(s, s.procs[s.curr].(state := st), pl)))
    && forall i :: 0 <= i < NSEM && s.sems[i].used && s.sems[i].count <= 0 ==>
         Sound(SetCount(s, i, s.sems[i].count - 1)) && Stuck(s, Waiting(SetCount(s, i, s.sems[i].count - 1), i))
  }

  lemma WhoMayNotBlock(s: Sys)
    requires Inv(s) && (s.ndefers > 0 || (InvSound(s); ReadyList(s) == []))
    ensures Sound(s)
    ensures NothingLeft(s)
  {
    hide Inv, RunsOn, Sleeping, Became, Waiting, SetCount;
    InvSound(s);
    WhoMaySleep(s, 1, Sleep, Outside);
    WhoMaySleep(s, 1, RecTim, InRecvTime);
    forall st, pl | st in {Recv, Susp, Free}
      ensures Stuck(s, Became(s, s.procs[s.curr].(state := st), pl))
    {
      WhoMayStop(s, st, pl);
    }
    forall i | 0 <= i < NSEM && s.sems[i].used && s.sems[i].count <= 0
      ensures Sound(SetCount(s, i, s.sems[i].count - 1)) && Stuck(s, Waiting(SetCount(s, i, s.sems[i].count - 1), i))
    {
      WhoMayWait(s, i);
    }
  }

  /** At start-up only the null process is there, and nobody is left if it blocks: in sleep, in
      receive, or on a semaphore that it has created with a count of zero. */
  lemma NullProcessBlocks(s: Sys)
    requires Initial(s)
    ensures Inv(s) && CallOK(s, SemCreateCall(0))
    ensures var t := Apply(s, SemCreateCall(0));
            Inv(t) && Sound(t) && t.curr == NULLPROC && t.sems[0].used && t.sems[0].count == 0 && NothingLeft(t)
  {
    hide Mid, NothingLeft, FindSem, SchedOK;
    InitialInv(s);
    InvSound(s);
    FirstSem(s.sems, NSEM);
    var t := Apply(s, SemCreateCall(0));
    InvSound(t);
    assert ReadyList(t) == [];
    WhoMayNotBlock(t);
  }

  lemma FirstSem(sems: seq<Sem>, tries: nat)
    requires |sems| == NSEM && tries > 0 && !sems[0].used
    ensures FindSem(sems, 0, tries) == (0, 1)
  {
  }

  /** A process that has started deferral may not block either. */
  lemma DeferredProcessBlocks(s: Sys)
    requires Initial(s)
    ensures var calls := [CreateCall(true, 10), ResumeCall(1), DeferCall];
            Inv(s) && RunOK(s, calls)
                && var t := Run(s, calls); Sound(t) && t.curr == 1 && t.ndefers == 1 && NothingLeft(t)
  {
    hide Inv, Apply, Run, RunOK, NothingLeft;
    InitialInv(s);
    var calls := [CreateCall(true, 10), ResumeCall(1), DeferCall];
    CreateStep(s, 1, 10);
    var s1 := Apply(s, calls[0]);
    ResumeStep(s1, 2, 1);
    var s2 := Apply(s1, calls[1]);
    TheHighestRuns(s2, 2, 1);
    DeferStep(s2);
    RunTwo(s, calls[..2]);
    ZeroWait.RunStep(s2, calls[2..]);
    ZeroWait.NoCalls(Apply(s2, DeferCall));
    assert calls[2..][1..] == [];
    ZeroWait.RunJoin(s, calls[..2], calls[2..]);
    assert calls[..2] + calls[2..] == calls;
    WhoMayNotBlock(Apply(s2, DeferCall));
  }

  lemma DeferStep(s: Sys)
    requires Inv(s) && CallOK(s, DeferCall)
    ensures Apply(s, DeferCall) == Start(s) && Sound(Start(s))
  {
    InvSound(Apply(s, DeferCall));
  }
}
