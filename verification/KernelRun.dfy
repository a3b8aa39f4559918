// Runs of the kernel: any sequence of calls, each made by whatever process is current then.

module KernelRun {

  import opened Common
  import opened Queues
  import opened Delta
  import opened Sched
  import opened Calls
  import opened Procs
  import opened Kernel

  /** A kernel call by the current process, the rest of a call it was blocked in, or the clock. */
  datatype Call =
    | WaitCall(sem: int) | SignalCall(sem: int) | SignalNCall(sem: int, count: int)
    | SemResetCall(sem: int, count: int) | SemDeleteCall(sem: int) | SemCreateCall(count: int)
    | SleepCall(delay: int) | YieldCall | ReceiveCall | ReceiveRest | RecvTimeCall(maxwait: int) | RecvTimeRest
    | RecvClrCall | SendCall(pid: int, msg: int) | SuspendCall(pid: int) | ResumeCall(pid: int)
    | CreateCall(gotStack: bool, priority: int) | KillCall(pid: int) | KillRest(pid: int)
    | DeferCall | UndeferCall | Tick

  ghost predicate SemInUse(s: Sys, i: int)
  {
    0 <= i < |s.sems| && s.sems[i].used
  }

  /** What the source demands of a caller: the null process never blocks, nobody blocks while
      rescheduling is deferred, delays fit 32 bits, and a blocked receive is finished first. */
  ghost predicate CallOK(s: Sys, c: Call)
    requires Sound(s)
  {
    var free := s.at[s.curr] == Outside;
    var mayBlock := s.curr != NULLPROC && s.ndefers == 0;
    match c
    case WaitCall(i) => free && (SemInUse(s, i) && s.sems[i].count <= 0 ==> mayBlock)
    case SleepCall(d) => free && 0 <= d <= MAXKEY && (d > 0 ==> mayBlock)
    case ReceiveCall => free && (!s.procs[s.curr].hasmsg ==> mayBlock)
    case ReceiveRest => s.at[s.curr] == InReceive
    case RecvTimeCall(d) => free && d <= MAXKEY && (!s.procs[s.curr].hasmsg ==> d < 0 || mayBlock)
    case RecvTimeRest => s.at[s.curr] == InRecvTime
    case SuspendCall(p) => free && (p == s.curr ==> s.ndefers == 0)
    case CreateCall(g, prio) => free && prio < 0x8000
    case KillRest(p) => free && 0 < p < NPROC && (p == s.curr ==> s.ndefers == 0)
    case Tick => true
    case _ => free
  }

  ghost function Apply(s: Sys, c: Call): (t: Sys)
    requires Inv(s) && CallOK(s, c)
    ensures Inv(t)
  {
    match c
    case WaitCall(i) => if SemInUse(s, i) then Waited(s, i) else s
    case SignalCall(i) => if SemInUse(s, i) then Signalled(s, i) else s
    case SignalNCall(i, n) => if SemInUse(s, i) && n >= 0 then SignalledN(s, i, n) else s
    case SemResetCall(i, n) => if SemInUse(s, i) && n >= 0 then ResetTo(s, i, n) else s
    case SemDeleteCall(i) => if SemInUse(s, i) then Deleted(s, i) else s
    case SemCreateCall(n) => if n >= 0 then SemCreated(s, n) else s
    case SleepCall(d) => Slept(s, d)
    case YieldCall => ReschedMid(s, EMPTY, 0); Resched(s)
    case ReceiveCall => if s.procs[s.curr].hasmsg then TookMessage(s) else AwaitsMessage(s)
    case ReceiveRest => TookMessage(s)
    case RecvTimeCall(d) => if d < 0 then s else if s.procs[s.curr].hasmsg then TookMessage(s) else AwaitsInTime(s, d)
    case RecvTimeRest => TookMessage(s)
    case RecvClrCall => if s.procs[s.curr].hasmsg then TookMessage(s) else s
    case SendCall(p, m) => if BadPid(s, p) || s.procs[p].hasmsg then s else Sent(s, p, m)
    case SuspendCall(p) => if BadPid(s, p) || p == NULLPROC || s.procs[p].state !in {Curr, Ready} then s
        else SuspendCurr(s, p); Suspended(s, p)
    case ResumeCall(p) => if BadPid(s, p) || s.procs[p].state != Susp then s else Resumed(s, p)
    case CreateCall(g, prio) => if g then Created(s, prio) else s
    case KillCall(p) => if BadPid(s, p) || p == NULLPROC then s else Notified(s, p)
    case KillRest(p) => Removed(s, p)
    case DeferCall => StartMid(s, EMPTY, 0); Start(s)
    case UndeferCall => StopMid(s, EMPTY, 0); Stop(s)
    case Tick => Ticked(s)
  }

  /** What the caller gets: a value, nothing yet because it waits inside receive or recvtime, or
      nothing at all from the clock.  Whoever waits on a semaphore or sleeps gets the value when it
      runs again. */
  datatype Reply = Done(value: int) | Blocked | Nothing

  ghost function Answer(s: Sys, c: Call): Reply
    requires Inv(s) && CallOK(s, c)
  {
    var pr := s.procs[s.curr];
    match c
    case WaitCall(i) => Done(if SemInUse(s, i) then OK else SYSERR)
    case SignalCall(i) => Done(if SemInUse(s, i) then OK else SYSERR)
    case SignalNCall(i, n) => Done(if SemInUse(s, i) && n >= 0 then OK else SYSERR)
    case SemResetCall(i, n) => Done(if SemInUse(s, i) && n >= 0 then OK else SYSERR)
    case SemDeleteCall(i) => Done(if SemInUse(s, i) then OK else SYSERR)
    case SemCreateCall(n) => Done(if n >= 0 then FindSem(s.sems, s.nextsem, NSEM).0 else SYSERR)
    case SleepCall(_) => Done(OK)
    case YieldCall => Done(OK)
    case ReceiveCall => if pr.hasmsg then Done(pr.msg) else Blocked
    case ReceiveRest => Done(pr.msg)
    case RecvTimeCall(d) => if d < 0 then Done(SYSERR) else if pr.hasmsg then Done(pr.msg) else Blocked
    case RecvTimeRest => Done(if pr.hasmsg then pr.msg else TIMEOUT)
    case RecvClrCall => Done(if pr.hasmsg then pr.msg else OK)
    case SendCall(p, _) => Done(if BadPid(s, p) || s.procs[p].hasmsg then SYSERR else OK)
    case SuspendCall(p) =>
      Done(if BadPid(s, p) || p == NULLPROC || s.procs[p].state !in {Curr, Ready} then SYSERR else s.procs[p].prio)
    case ResumeCall(p) => Done(if BadPid(s, p) || s.procs[p].state != Susp then SYSERR else s.procs[p].prio)
    case CreateCall(g, prio) => Done(if g && prio >= 1 then FindPid(s.procs, s.nextpid, NPROC).0 else SYSERR)
    case KillCall(p) => Done(if BadPid(s, p) || p == NULLPROC then SYSERR else OK)
    case KillRest(_) => Done(OK)
    case DeferCall => Done(OK)
    case UndeferCall => Done(if s.ndefers <= 0 then SYSERR else OK)
    case Tick => Nothing
  }

  lemma SuspendCurr(s: Sys, p: int)
    requires Inv(s) && 0 <= p < NPROC && s.procs[p].state in {Curr, Ready}
    ensures p == s.curr <==> s.procs[p].state == Curr
  {
  }

  predicate OnSemaphore(c: Call)
  {
    c.WaitCall? || c.SignalCall? || c.SignalNCall? || c.SemResetCall? || c.SemDeleteCall? || c.SemCreateCall?
  }

  /** One call on the machine does and answers what Apply and Answer say. */
  method Step(m: Machine, c: Call) returns (r: Reply)
    requires m.Linked() && Inv(m.Now()) && CallOK(m.Now(), c)
    modifies m, m.queuetab, m.proctab, m.semtab
    ensures m.Linked() && m.Now() == Apply(old(m.Now()), c) && r == Answer(old(m.Now()), c)
  {
    hide Inv, Threaded, Apply, CallOK, Answer;
    if OnSemaphore(c) {
      r := StepSemaphore(m, c);
    } else {
      r := StepProcess(m, c);
    }
  }

  method StepSemaphore(m: Machine, c: Call) returns (r: Reply)
    requires m.Linked() && Inv(m.Now()) && CallOK(m.Now(), c) && OnSemaphore(c)
    modifies m, m.queuetab, m.proctab, m.semtab
    ensures m.Linked() && m.Now() == Apply(old(m.Now()), c) && r == Answer(old(m.Now()), c)
  {
    hide Inv, Threaded, Waited, Signalled, SignalledN, ResetTo, Deleted, SemCreated;
    InvFacts(m.Now());
    var x;
    match c {
      case WaitCall(i) => x := m.Wait(i);
      case SignalCall(i) => x := m.Signal(i);
      case SignalNCall(i, n) => x := m.SignalN(i, n);
      case SemResetCall(i, n) => x := m.SemReset(i, n);
      case SemDeleteCall(i) => x := m.SemDelete(i);
      case SemCreateCall(n) => x := m.SemCreate(n);
    }
    r := Done(x);
  }

  method StepProcess(m: Machine, c: Call) returns (r: Reply)
    requires m.Linked() && Inv(m.Now()) && CallOK(m.Now(), c) && !OnSemaphore(c)
    modifies m, m.queuetab, m.proctab, m.semtab
    ensures m.Linked() && m.Now() == Apply(old(m.Now()), c) && r == Answer(old(m.Now()), c)
  {
    hide Inv, Threaded, Slept, Sched.Resched;
    hide TookMessage, AwaitsMessage, AwaitsInTime, Sent, Suspended, Resumed, Created, Notified, Removed, Stop, Ticked;
    InvFacts(m.Now());
    var x, b := OK, false;
    match c {
      case SleepCall(d) => x := m.SleepMs(d);
      case YieldCall => x := m.Yield();
      case ReceiveCall => b, x := m.Receive();
      case ReceiveRest => x := m.FinishReceive();
      case RecvTimeCall(d) => b, x := m.RecvTime(d);
      case RecvTimeRest => x := m.FinishRecvTime();
      case RecvClrCall => x := m.RecvClr();
      case SendCall(p, msg) => x := m.Send(p, msg);
      case SuspendCall(p) => x := m.Suspend(p);
      case ResumeCall(p) => x := m.Resume(p);
      case CreateCall(g, prio) => x := m.Create(g, prio);
      case KillCall(p) => x := m.KillNotify(p);
      case KillRest(p) => m.KillRemove(p);
      case DeferCall => m.DeferStart();
      case UndeferCall => x := m.DeferStop();
      case Tick => m.ClockTick();
    }
    r := if c == Tick then Nothing else if b then Blocked else Done(x);
  }

  /** Every call of a run is one that its caller may make. */
  ghost predicate RunOK(s: Sys, calls: seq<Call>)
    requires Inv(s)
    decreases |calls|
  {
    calls == [] || (CallOK(s, calls[0]) && RunOK(Apply(s, calls[0]), calls[1..]))
  }

  ghost function Run(s: Sys, calls: seq<Call>): (t: Sys)
    requires Inv(s) && RunOK(s, calls)
    ensures Inv(t)
    decreases |calls|
  {
    if calls == [] then s else Run(Apply(s, calls[0]), calls[1..])
  }

  /** The answers along a run. */
  ghost function Answers(s: Sys, calls: seq<Call>): seq<Reply>
    requires Inv(s) && RunOK(s, calls)
    decreases |calls|
  {
    if calls == [] then [] else [Answer(s, calls[0])] + Answers(Apply(s, calls[0]), calls[1..])
  }

  /** Any run: the tables stay threaded, the invariant holds at the end, and the state and the answers
      are those that the calls lead to. */
  method Execute(m: Machine, calls: seq<Call>) returns (replies: seq<Reply>)
    requires m.Linked() && Inv(m.Now()) && RunOK(m.Now(), calls)
    modifies m, m.queuetab, m.proctab, m.semtab
    ensures m.Linked() && Inv(m.Now()) && m.Now() == Run(old(m.Now()), calls)
    ensures replies == Answers(old(m.Now()), calls)
  {
    hide Inv, Threaded, Apply, CallOK, Answer;
    var i := 0;
    replies := [];
    while i < |calls|
      invariant 0 <= i <= |calls| && m.Linked() && Inv(m.Now()) && RunOK(m.Now(), calls[i..])
      invariant Run(m.Now(), calls[i..]) == Run(old(m.Now()), calls)
      invariant replies + Answers(m.Now(), calls[i..]) == Answers(old(m.Now()), calls)
    {
      ghost var s := m.Now();
      assert calls[i..][1..] == calls[i + 1..];
      var r := Step(m, calls[i]);
      replies := replies + [r];
      i := i + 1;
    }
  }

  /** From power-on. */
  method Boot() returns (m: Machine)
    ensures fresh(m) && m.Linked() && Inv(m.Now()) && Initial(m.Now())
    ensures fresh(m.queuetab) && fresh(m.proctab) && fresh(m.semtab)
  {
    hide Inv, Threaded, Initial;
    m := new Machine();
    m.SysInit();
    InitialInv(m.Now());
  }

  /** The table has room for 122 lists; the call for one more is granted and writes behind it. */
  method OneQueueTooMany() returns (m: Machine, q: int, outside: bool)
    ensures fresh(m) && q == NQENT && outside
  {
    hide Threaded;
    m := new Machine();
    var i := 0;
    while i < (NQENT - NPROC) / 2
      invariant 0 <= i <= (NQENT - NPROC) / 2 && fresh(m) && fresh(m.queuetab) && m.Linked()
                && m.nextqid == NPROC + 2 * i
      invariant forall x :: x in m.lists.on ==> x < m.nextqid
    {
      q, outside := m.NewQueue();
      i := i + 1;
    }
    q, outside := m.NewQueue();
  }
}
