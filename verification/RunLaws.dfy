// What holds after every run of kernel calls, spelled out.

module RunLaws {

  import opened Common
  import opened Queues
  import opened Delta
  import opened Sched
  import opened Calls
  import opened Procs
  import opened KernelRun
  import opened Semaphores
  import opened SemaphoreLaws
  import opened SleepLaws

  /** State t comes about by some run of legal calls from s. */
  ghost predicate Reached(s: Sys, calls: seq<Call>, t: Sys)
  {
    Inv(s) && RunOK(s, calls) && t == Run(s, calls)
  }

  /** The state of a process says exactly which list it is on, and it is on that one once. */
  lemma StateDecidesList(s: Sys, calls: seq<Call>, t: Sys, p: int)
    requires Reached(s, calls, t) && 0 <= p < NPROC
    ensures Sound(t)
    ensures t.procs[p].state == Ready <==> p in ReadyList(t)
    ensures t.procs[p].state in {Sleep, RecTim} <==> p in Sleepers(t)
    ensures forall i :: 0 <= i < NSEM ==> ((t.procs[p].state == Wait && t.procs[p].sem == i) <==> p in WaitersOf(t, i))
    ensures t.procs[p].state in {Free, Curr, Recv, Susp} <==> forall q :: q in t.lists.on ==> p !in t.lists.on[q]
    ensures NoDup(ReadyList(t)) && NoDup(Sleepers(t)) && forall i :: 0 <= i < NSEM ==> NoDup(WaitersOf(t, i))
  {
    hide Run, RunOK, SemsBut, SleepBut, MsgsBut, SchedOK, PrioOK, OneCurr, ReadyOK, NoDup;
    assert HomeOK(t, p);
    HeadIds(t);
    var h := t.lists.home[p];
    if h != EMPTY {
      HomeHolds(t.lists, p);
    }
    forall q | q in t.lists.on
      ensures NoDup(t.lists.on[q]) && (p in t.lists.on[q] <==> h == q)
    {
      ListNoDup(t.lists, q);
      HeadNotEmpty(q);
      if p in t.lists.on[q] {
        OnHome(t.lists, q, p);
      }
    }
    forall i | 0 <= i < NSEM
      ensures NoDup(WaitersOf(t, i)) && ((t.procs[p].state == Wait && t.procs[p].sem == i) <==> p in WaitersOf(t, i))
    {
      QueueOf(t, i);
    }
  }

  /** Exactly one process runs, and with no deferral pending none that is ready has a higher
      priority.  If it stopped running there would be somebody to dispatch. */
  lemma HighestPriorityRuns(s: Sys, calls: seq<Call>, t: Sys, p: int)
    requires Reached(s, calls, t) && 0 <= p < NPROC
    ensures |t.procs| == NPROC && 0 <= t.curr < NPROC && (t.procs[p].state == Curr <==> p == t.curr)
    ensures t.ndefers == 0 && t.procs[p].state == Ready ==> t.procs[p].prio <= t.procs[t.curr].prio
    ensures t.curr != NULLPROC ==> Sound(t) && ReadyList(t) != []
  {
    hide Run, RunOK, SemsBut, SleepBut, MsgsBut, Shape;
    if t.curr != NULLPROC {
      SomeoneElse(t);
    }
  }

  /** A semaphore in use: the count is minus the number of waiting processes, or nobody waits. */
  lemma CountTellsQueue(s: Sys, calls: seq<Call>, t: Sys, i: int)
    requires Reached(s, calls, t) && 0 <= i < NSEM
    ensures Sound(t)
    ensures t.sems[i].used ==> |WaitersOf(t, i)| == if t.sems[i].count < 0 then -t.sems[i].count else 0
    ensures !t.sems[i].used ==> WaitersOf(t, i) == []
  {
    hide Run, RunOK, LooseBut, SleepBut, MsgsBut, Shape;
    InvSound(t);
    assert CountOK(t, i);
  }

  lemma SomeoneElse(s: Sys)
    requires Inv(s) && s.curr != NULLPROC
    ensures Sound(s) && ReadyList(s) != []
  {
    hide Shape;
    assert HomeOK(s, NULLPROC);
    HeadIds(s);
    HomeHolds(s.lists, NULLPROC);
  }
}
