// The calls about processes and their messages (system/receive.c, recvtime.c, recvclr.c, send.c,
// suspend.c, resume.c, kill.c, create.c).

module Procs {

  import opened Common
  import opened Queues
  import opened Delta
  import opened Sched
  import opened Calls

  predicate BadPid(s: Sys, p: int)
  {
    p < 0 || p >= |s.procs| || s.procs[p].state == Free
  }

  // ---- messages ---------------------------------------------------------------------------

  /** The current process, off every list, gets a new entry and place in its code. */
  ghost function Became(s: Sys, pr: Proc, pl: Place): Sys
    requires Sound(s)
  {
    SetProc(s, s.curr, pr).(at := s.at[s.curr := pl])
  }

  lemma BecameMid(s: Sys, pr: Proc, pl: Place)
    requires Mid(s, EMPTY, EMPTY, 0) && Core(s) && pr.state in {Free, Curr, Recv, Susp}
             && pr.prio == s.procs[s.curr].prio
    requires s.curr == NULLPROC ==> pr.state == Curr
    requires pr.state == Recv ==> pl == InReceive && !pr.hasmsg
    requires pl == InReceive && pr.state != Free ==> pr.hasmsg || pr.state == Recv
    ensures Mid(Became(s, pr, pl), EMPTY, EMPTY, 0) && Became(s, pr, pl).ndefers == s.ndefers
    ensures pr.state == Curr ==> Core(Became(s, pr, pl)) && (SchedOK(s) ==> SchedOK(Became(s, pr, pl)))
  {
    hide Shape, NoDup, OneCurr, ReadyOK, Descending, HomeOK;
    CurrLoose(s);
    var t := Became(s, pr, pl);
    StateLoose(s, s.curr, pr);
    FrameLoose(SetProc(s, s.curr, pr), t, EMPTY);
    forall j | 0 <= j < NSEM
      ensures CountOK(t, j)
    {
      assert CountOK(s, j);
    }
    forall x | 0 <= x < NPROC
      ensures MsgOK(t, x)
    {
      assert MsgOK(s, x);
    }
  }

  /** The message, if any, is taken; the process is outside receive again (system/receive.c:21-22). */
  ghost function TookMessage(s: Sys): (t: Sys)
    requires Inv(s)
    ensures Inv(t)
  {
    var pr := s.procs[s.curr].(hasmsg := false);
    BecameMid(s, pr, Outside);
    Became(s, pr, Outside)
  }

  /** receive with no message there (system/receive.c:17-20). */
  ghost function AwaitsMessage(s: Sys): (t: Sys)
    requires Inv(s) && !s.procs[s.curr].hasmsg && s.curr != NULLPROC && s.ndefers == 0
    ensures Inv(t)
  {
    var pr := s.procs[s.curr].(state := Recv);
    BecameMid(s, pr, InReceive);
    ReschedMid(Became(s, pr, InReceive), EMPTY, 0);
    Resched(Became(s, pr, InReceive))
  }

  /** recvtime with no message there (system/recvtime.c:25-32). */
  ghost function AwaitsInTime(s: Sys, d: int): (t: Sys)
    requires Inv(s) && !s.procs[s.curr].hasmsg && s.curr != NULLPROC && s.ndefers == 0 && 0 <= d <= MAXKEY
    ensures Inv(t)
  {
    SleepingMid(s, d, RecTim, InRecvTime);
    ReschedMid(Sleeping(s, d, RecTim, InRecvTime), EMPTY, 0);
    Resched(Sleeping(s, d, RecTim, InRecvTime))
  }

  /** send (system/send.c:23-38). */
  ghost function Sent(s: Sys, p: int, msg: int): (t: Sys)
    requires Inv(s) && !BadPid(s, p) && !s.procs[p].hasmsg
    ensures Inv(t)
  {
    var s1 := SetProc(s, p, s.procs[p].(msg := msg, hasmsg := true));
    SentInv(s, p, msg);
    if s.procs[p].state == Recv then Readied(s1, p)
    else if s.procs[p].state == RecTim then Readied(Unslept(s1, p), p)
    else s1
  }

  lemma SentInv(s: Sys, p: int, msg: int)
    requires Inv(s) && !BadPid(s, p) && !s.procs[p].hasmsg
    ensures var s1 := SetProc(s, p, s.procs[p].(msg := msg, hasmsg := true));
            && Sound(s1)
            && if s.procs[p].state == Recv then Woken(s1, p, EMPTY, 0)
               else if s.procs[p].state == RecTim then s1.lists.home[p] != EMPTY && Woken(Unslept(s1, p), p, EMPTY, 0)
               else Inv(s1)
  {
    hide Mid, LooseBut, Readied, ReadyOnly, Woken, Unslept;
    InvParts(s);
    if s.procs[p].state == Recv {
      SentToRecv(s, p, msg);
    } else if s.procs[p].state == RecTim {
      SentToRecTim(s, p, msg);
    } else {
      SentToOther(s, p, msg);
    }
  }

  lemma InvParts(s: Sys)
    requires Inv(s)
    ensures Mid(s, EMPTY, EMPTY, 0) && LooseBut(s, EMPTY) && Sound(s) && Core(s)
  {
  }

  lemma SentToRecv(s: Sys, p: int, msg: int)
    requires Inv(s) && !BadPid(s, p) && s.procs[p].state == Recv
    ensures var s1 := SetProc(s, p, s.procs[p].(msg := msg, hasmsg := true)); Sound(s1) && Woken(s1, p, EMPTY, 0)
  {
    hide Shape, NoDup, OneCurr, ReadyOK, Descending, PrioOK, SemsBut, SleepBut, Woken;
    var s1 := SetProc(s, p, s.procs[p].(msg := msg, hasmsg := true));
    FrameLoose(s, s1, EMPTY);
    SentRest(s, p, msg);
    assert HomeOK(s1, p);
    WokenIs(s1, p, EMPTY, 0);
  }

  lemma SentToRecTim(s: Sys, p: int, msg: int)
    requires Inv(s) && !BadPid(s, p) && s.procs[p].state == RecTim
    ensures var s1 := SetProc(s, p, s.procs[p].(msg := msg, hasmsg := true));
            Sound(s1) && s1.lists.home[p] != EMPTY && Woken(Unslept(s1, p), p, EMPTY, 0)
  {
    hide Shape, NoDup, OneCurr, ReadyOK, Descending, PrioOK, HomeOK, SemsBut, SleepBut, MsgsBut, Woken;
    var s1 := SetProc(s, p, s.procs[p].(msg := msg, hasmsg := true));
    FrameLoose(s, s1, EMPTY);
    UnsleptMid(s, p);
    var t, t1 := Unslept(s, p), Unslept(s1, p);
    assert t1 == SetProc(t, p, s1.procs[p]);
    SentMid(t, p, msg);
    WokenIs(t1, p, EMPTY, 0);
  }

  lemma SentToOther(s: Sys, p: int, msg: int)
    requires Inv(s) && !BadPid(s, p) && s.procs[p].state != Recv && s.procs[p].state != RecTim
    ensures var s1 := SetProc(s, p, s.procs[p].(msg := msg, hasmsg := true)); Sound(s1) && Inv(s1)
  {
    hide Shape, NoDup, OneCurr, ReadyOK, Descending, PrioOK, HomeOK, SemsBut, SleepBut;
    FrameLoose(s, SetProc(s, p, s.procs[p].(msg := msg, hasmsg := true)), EMPTY);
    SentRest(s, p, msg);
  }

  lemma SentRest(s: Sys, p: int, msg: int)
    requires Inv(s) && !BadPid(s, p)
    ensures var s1 := SetProc(s, p, s.procs[p].(msg := msg, hasmsg := true));
            && (LooseBut(s1, EMPTY) ==>
               SemsBut(s1, EMPTY) && SleepBut(s1, 0) && (forall x :: 0 <= x < NPROC && x != p ==> MsgOK(s1, x)))
            && (LooseBut(s1, EMPTY) && s.procs[p].state != Recv && s.procs[p].state != RecTim ==>
               MsgOK(s1, p) && SchedOK(s1))
  {
    hide Shape, NoDup, OneCurr, ReadyOK, Descending, PrioOK, HomeOK;
    var s1 := SetProc(s, p, s.procs[p].(msg := msg, hasmsg := true));
    if LooseBut(s1, EMPTY) {
      forall j | 0 <= j < NSEM
        ensures CountOK(s1, j)
      {
        assert CountOK(s, j);
      }
      forall x | 0 <= x < NPROC && x != p
        ensures MsgOK(s1, x)
      {
        assert MsgOK(s, x);
      }
      assert MsgOK(s, p);
    }
  }

  /** Delivering to a process that is off every list. */
  lemma SentMid(s: Sys, p: int, msg: int)
    requires Mid(s, p, EMPTY, 0) && 0 <= p < NPROC
    ensures Mid(SetProc(s, p, s.procs[p].(msg := msg, hasmsg := true)), p, EMPTY, 0)
  {
    hide Shape, NoDup, OneCurr, ReadyOK, Descending, PrioOK, HomeOK;
    var s1 := SetProc(s, p, s.procs[p].(msg := msg, hasmsg := true));
    FrameLoose(s, s1, p);
    forall j | 0 <= j < NSEM
      ensures CountOK(s1, j)
    {
      assert CountOK(s, j);
    }
    forall x | 0 <= x < NPROC && x != p
      ensures MsgOK(s1, x)
    {
      assert MsgOK(s, x);
    }
  }

  /** The first half of kill: the parent is sent the dead process's ID (system/kill.c:28). */
  ghost function Notified(s: Sys, p: int): (t: Sys)
    requires Inv(s) && 0 <= p < |s.procs|
    ensures Inv(t)
  {
    var parent := s.procs[p].parent;
    if BadPid(s, parent) || s.procs[parent].hasmsg then s else Sent(s, parent, p)
  }

  // ---- suspending, resuming, killing ---------------------------------------------------------

  /** Process p, just taken off its list, is suspended or gone. */
  lemma SetMid(s: Sys, p: int, st: PState)
    requires Mid(s, p, EMPTY, 0) && 0 < p < NPROC && st in {Free, Susp} && s.procs[p].state != Free && p != s.curr
    ensures Mid(SetState(s, p, st), EMPTY, EMPTY, 0)
    ensures s.procs[s.curr].state == Curr && SchedOK(s) ==> Inv(SetState(s, p, st))
  {
    hide Shape, NoDup, OneCurr, ReadyOK, Descending, HomeOK;
    var t := SetState(s, p, st);
    StateLoose(s, p, s.procs[p].(state := st));
    forall j | 0 <= j < NSEM
      ensures CountOK(t, j)
    {
      assert CountOK(s, j);
    }
    forall x | 0 <= x < NPROC
      ensures MsgOK(t, x)
    {
      assert x != p ==> MsgOK(s, x);
    }
  }

  /** The current process gives up its state for good or for a while. */
  ghost function Retired(s: Sys, st: PState): (t: Sys)
    requires Inv(s) && s.curr != NULLPROC && s.ndefers == 0 && st in {Free, Susp}
    requires st == Susp ==> s.at[s.curr] == Outside
    ensures Inv(t)
  {
    var pr := s.procs[s.curr].(state := st);
    BecameMid(s, pr, Outside);
    ReschedMid(Became(s, pr, Outside), EMPTY, 0);
    Resched(Became(s, pr, Outside))
  }

  /** A ready process is taken off the ready list. */
  ghost function Unreadied(s: Sys, p: int, st: PState): (t: Sys)
    requires Inv(s) && 0 < p < NPROC && s.procs[p].state == Ready && st in {Free, Susp}
    ensures Inv(t)
  {
    UnreadyMid(s, p, st);
    SetState(Unlinked(s, p), p, st)
  }

  lemma UnreadyMid(s: Sys, p: int, st: PState)
    requires Inv(s) && 0 < p < NPROC && s.procs[p].state == Ready && st in {Free, Susp}
    ensures s.lists.home[p] == s.readylist && s.readylist != EMPTY && Inv(SetState(Unlinked(s, p), p, st))
  {
    hide Shape, NoDup, OneCurr, ReadyOK, Descending, HomeOK, PrioOK, SemsBut, SleepBut, MsgsBut;
    ReadyState(s, p);
    HeadIds(s);
    DropMid(s, s.readylist, IndexOf(ReadyList(s), p), EMPTY, 0);
    var t := Unlinked(s, p);
    SchedFrame(s, t);
    SetMid(t, p, st);
  }

  /** suspend (system/suspend.c:23-37). */
  ghost function Suspended(s: Sys, p: int): (t: Sys)
    requires Inv(s) && 0 < p < NPROC && s.procs[p].state in {Curr, Ready}
    requires p == s.curr ==> s.ndefers == 0 && s.at[p] == Outside
    ensures Inv(t)
  {
    if s.procs[p].state == Ready then Unreadied(s, p, Susp) else Retired(s, Susp)
  }

  /** resume (system/resume.c:22-28). */
  ghost function Resumed(s: Sys, p: int): (t: Sys)
    requires Inv(s) && 0 <= p < NPROC && s.procs[p].state == Susp
    ensures Inv(t)
  {
    ResumeMid(s, p);
    Readied(s, p)
  }

  lemma ResumeMid(s: Sys, p: int)
    requires Inv(s) && 0 <= p < NPROC && s.procs[p].state == Susp
    ensures Woken(s, p, EMPTY, 0)
  {
    hide Shape, NoDup, OneCurr, ReadyOK, Descending, PrioOK, SemsBut, SleepBut, Readied, ReadyOnly;
    assert HomeOK(s, p) && MsgOK(s, p);
    WokenIs(s, p, EMPTY, 0);
  }

  /** A waiting process leaves the queue of its semaphore, whose count it gives back. */
  ghost function Unwaited(s: Sys, p: int): (t: Sys)
    requires Inv(s) && 0 < p < NPROC && s.procs[p].state == Wait
    ensures Inv(t)
  {
    UnwaitMid(s, p);
    var i := s.procs[p].sem;
    SetState(Unlinked(SetCount(s, i, s.sems[i].count + 1), p), p, Free)
  }

  lemma UnwaitMid(s: Sys, p: int)
    requires Inv(s) && 0 < p < NPROC && s.procs[p].state == Wait
    ensures var i := s.procs[p].sem;
            && 0 <= i < NSEM && s.lists.home[p] == s.sems[i].queue && s.lists.home[p] != EMPTY && s.sems[i].used
               && s.sems[i].count < 0
            && Sound(SetCount(s, i, s.sems[i].count + 1))
            && Inv(SetState(Unlinked(SetCount(s, i, s.sems[i].count + 1), p), p, Free))
  {
    hide Shape, NoDup, OneCurr, ReadyOK, Descending, HomeOK, PrioOK, SemsBut, SleepBut, MsgsBut;
    WaitState(s, p);
    var i := s.procs[p].sem;
    OpenSem(s, EMPTY, i, 0);
    var s1 := SetCount(s, i, s.sems[i].count + 1);
    SemMid(s, EMPTY, i, 0, s.sems[i].(count := s.sems[i].count + 1));
    QueueOf(s, i);
    HomeHolds(s1.lists, p);
    var q := s.sems[i].queue;
    var k := IndexOf(s.lists.on[q], p);
    DropMid(s1, q, k, i, 0);
    var t := Unlinked(s1, p);
    CloseSem(t, p, i, 0);
    SchedFrame(s, t);
    SetMid(t, p, Free);
  }

  lemma WaitState(s: Sys, p: int)
    requires LooseBut(s, EMPTY) && 0 <= p < NPROC && s.procs[p].state == Wait
    ensures 0 <= s.procs[p].sem < NSEM && s.lists.home[p] == s.sems[s.procs[p].sem].queue && s.lists.home[p] != EMPTY
  {
    assert HomeOK(s, p);
    HeadIds(s);
  }

  /** A sleeping process is taken off the sleep queue for good. */
  ghost function Unslumbered(s: Sys, p: int): (t: Sys)
    requires Inv(s) && 0 < p < NPROC && s.procs[p].state in {Sleep, RecTim}
    ensures Inv(t)
  {
    UnslumberMid(s, p);
    SetState(Unslept(s, p), p, Free)
  }

  lemma UnslumberMid(s: Sys, p: int)
    requires Inv(s) && 0 < p < NPROC && s.procs[p].state in {Sleep, RecTim}
    ensures s.lists.home[p] == s.sleepq && s.sleepq != EMPTY && Inv(SetState(Unslept(s, p), p, Free))
  {
    hide Shape, NoDup, OneCurr, ReadyOK, Descending, HomeOK, PrioOK, SemsBut, SleepBut, MsgsBut;
    UnsleptMid(s, p);
    SleptFields(s, p);
    var t := Unslept(s, p);
    SchedFrame(s, t);
    SetMid(t, p, Free);
  }

  lemma SleptFields(s: Sys, p: int)
    requires Sound(s) && 0 <= p < NPROC && s.lists.home[p] != EMPTY
    ensures Unslept(s, p).ndefers == s.ndefers && Unslept(s, p).attempt == s.attempt
  {
  }

  /** A process on no list and not current is gone. */
  ghost function Cleared(s: Sys, p: int, pr: Proc): (t: Sys)
    requires Inv(s) && 0 < p < NPROC && s.procs[p].state in {Recv, Susp, Free} && pr.state in {Free, Susp}
    requires pr.state == Susp ==> 0 < pr.prio < 0x8000
    ensures Inv(t)
  {
    ClearMid(s, p, pr);
    SetProc(s, p, pr).(at := s.at[p := Outside])
  }

  lemma ClearMid(s: Sys, p: int, pr: Proc)
    requires Inv(s) && 0 < p < NPROC && s.procs[p].state in {Recv, Susp, Free} && pr.state in {Free, Susp}
    requires pr.state == Susp ==> 0 < pr.prio < 0x8000
    ensures Inv(SetProc(s, p, pr).(at := s.at[p := Outside]))
  {
    hide Shape, NoDup, OneCurr, ReadyOK, Descending;
    assert HomeOK(s, p);
    StateLoose(s, p, pr);
    var s1 := SetProc(s, p, pr);
    var t := s1.(at := s.at[p := Outside]);
    FrameLoose(s1, t, EMPTY);
    forall j | 0 <= j < NSEM
      ensures CountOK(t, j)
    {
      assert CountOK(s, j);
    }
    forall x | 0 <= x < NPROC
      ensures MsgOK(t, x)
    {
      assert MsgOK(s, x);
    }
  }

  /** The second half of kill, after the parent has been told (system/kill.c:34-55). */
  ghost function Removed(s: Sys, p: int): (t: Sys)
    requires Inv(s) && 0 < p < NPROC && (p == s.curr ==> s.ndefers == 0)
    ensures Inv(t)
  {
    match s.procs[p].state
    case Curr => CurrIs(s, p); Retired(s, Free)
    case Sleep => Unslumbered(s, p)
    case RecTim => Unslumbered(s, p)
    case Wait => Unwaited(s, p)
    case Ready => Unreadied(s, p, Free)
    case _ => Cleared(s, p, s.procs[p].(state := Free))
  }

  lemma CurrIs(s: Sys, p: int)
    requires LooseBut(s, EMPTY) && 0 <= p < NPROC && s.procs[p].state == Curr
    ensures p == s.curr
  {
  }

  /** newpid: the next free entry, searching round the table (system/create.c:142-150). */
  function FindPid(procs: seq<Proc>, next: int, tries: nat): (r: (int, int))
    requires |procs| == NPROC && 0 <= next <= NPROC
    ensures 0 <= r.1 <= NPROC && (r.0 == -1 || (0 <= r.0 < NPROC && procs[r.0].state == Free))
    decreases tries
  {
    if tries == 0 then (-1, next)
    else
      var n := next % NPROC;
      if procs[n].state == Free then (n, n + 1) else FindPid(procs, n + 1, tries - 1)
  }

  /** create once the stack has been found (system/create.c:35-54). */
  ghost function Created(s: Sys, prio: int): (t: Sys)
    requires Inv(s) && prio < 0x8000
    ensures Inv(t)
  {
    var (p, next) := FindPid(s.procs, s.nextpid, NPROC);
    var s1 := s.(nextpid := next);
    FrameMid(s, s1, EMPTY, EMPTY, 0);
    SchedFrame(s, s1);
    if p == -1 || prio < 1 then s1
    else
      NullLives(s, p);
      Cleared(s1, p, s.procs[p].(state := Susp, prio := prio, sem := -1, parent := s.curr, hasmsg := false))
  }

  lemma NullLives(s: Sys, p: int)
    requires Inv(s) && 0 <= p < NPROC && s.procs[p].state == Free
    ensures p != NULLPROC
  {
  }
}
