// The semaphores of the ports are the kernel's: wait, signal, semreset and semdelete act on count
// and queue as the port specification says.

module PortSemaphores {

  import opened Common
  import opened Queues
  import opened Sched
  import opened Calls
  import opened Procs
  import opened KernelRun
  import opened Semaphores
  import opened SemaphoreLaws
  import P = PortSpec

  /** Semaphore i as a port sees it. */
  ghost function View(s: Sys, i: int): P.Sema
    requires Sound(s) && 0 <= i < NSEM
  {
    P.Sema(s.sems[i].used, if s.sems[i].used then s.sems[i].count else 0, WaitersOf(s, i))
  }

  /** What the port specification makes of semaphore i for call c by process p. */
  ghost function ViewAfter(v: P.Sema, c: Call, p: int, i: int): P.Sema
    requires v.count < 0 ==> v.waiting != []
  {
    match c
    case WaitCall(j) => if j != i then v else if v.count > 0 then P.Claimed(v) else P.Joined(v, p)
    case SignalCall(j) => if j != i then v else P.Signalled(v)
    case SemResetCall(j, n) => if j != i || n < 0 then v else P.Vacated(v, true, n)
    case SemDeleteCall(j) => if j != i then v else P.Vacated(v, false, 0)
    case _ => v
  }

  /** Every call but an n-fold signal on it and the killing of one who waits on it. */
  lemma KernelSemaphore(s: Sys, c: Call, i: int)
    requires Inv(s) && CallOK(s, c) && 0 <= i < NSEM && s.sems[i].used && !(c.SignalNCall? && c.sem == i)
    ensures Sound(s) && Sound(Apply(s, c)) && (View(s, i).count < 0 ==> View(s, i).waiting != [])
    ensures !Kills(s, c, i) ==> View(Apply(s, c), i) == ViewAfter(View(s, i), c, s.curr, i)
  {
    hide Inv, Sound, WaitersOf, Apply, CallOK, Survive;
    InvSound(s);
    InvCount(s, i);
    QueueMoves(s, c, i);
  }

  lemma InvCount(s: Sys, i: int)
    requires Inv(s) && 0 <= i < NSEM && s.sems[i].used
    ensures Sound(s) && Matches(s.sems[i].count, WaitersOf(s, i))
  {
    hide LooseBut, SleepBut, MsgsBut, SchedOK, Shape;
    InvSound(s);
    assert CountOK(s, i);
  }

  /** semcreate gives an empty semaphore with the count asked for, or none. */
  lemma KernelCreates(s: Sys, n: nat)
    requires Inv(s) && CallOK(s, SemCreateCall(n))
    ensures Sound(Apply(s, SemCreateCall(n)))
    ensures var (i, next) := (InvSound(s); FindSem(s.sems, s.nextsem, NSEM));
            i != -1 ==> 0 <= i < NSEM && View(Apply(s, SemCreateCall(n)), i) == P.Sema(true, n, [])
  {
    hide LooseBut, SleepBut, MsgsBut, SchedOK, Shape;
    InvSound(s);
    InvSound(Apply(s, SemCreateCall(n)));
    var i := FindSem(s.sems, s.nextsem, NSEM).0;
    if i != -1 {
      assert CountOK(s, i);
    }
  }
}
