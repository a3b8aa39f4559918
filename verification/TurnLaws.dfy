// Whose turn it is: what each call does to the deferral of rescheduling, and that the clock goes
// round the processes of the highest priority (system/resched.c, clkhandler.c, yield.c).

module TurnLaws {

  import opened Common
  import opened Queues
  import opened Delta
  import opened Sched
  import opened Calls
  import opened Procs
  import opened Kernel
  import opened KernelRun
  import opened Semaphores
  import opened SemaphoreLaws
  import opened SleepLaws
  import opened ProcLaws

  // ---- deferral ----------------------------------------------------------------------------------------

  /** The nesting of deferral after a call. */
  function Nesting(n: int, c: Call): int
  {
    match c
    case DeferCall => n + 1
    case UndeferCall => if n > 0 then n - 1 else n
    case _ => n
  }

  lemma ReschedDefers(s: Sys)
    requires LooseBut(s, EMPTY) && (s.ndefers > 0 ==> s.procs[s.curr].state == Curr)
    ensures CanRun(s) && Resched(s).ndefers == s.ndefers
  {
    hide Shape;
    SomeoneCanRun(s);
  }

  lemma StopDefers(s: Sys)
    requires Core(s)
    ensures Stop(s).ndefers == if s.ndefers > 0 then s.ndefers - 1 else s.ndefers
  {
    hide Shape, Resched, CanRun;
    if s.ndefers > 0 {
      var s1 := s.(ndefers := s.ndefers - 1);
      FrameLoose(s, s1, EMPTY);
      ReschedDefers(s1);
    }
  }

  /** Only the calls that begin and end deferral change how deeply it is nested: whatever a call
      defers for itself it ends itself. */
  lemma DefersLaw(s: Sys, c: Call)
    requires Inv(s) && CallOK(s, c)
    ensures Apply(s, c).ndefers == Nesting(s.ndefers, c)
  {
    hide Mid, SchedOK, Resched, Stop, Start, Waited, Signalled, SignalledN, ResetTo, Deleted, Ticked, Readied, FindPid,
        FindSem,
        Slept, AwaitsMessage, AwaitsInTime, Suspended, Removed, Sent;
    InvParts(s);
    match c
    case UndeferCall => StopDefers(s);
    case YieldCall => ReschedDefers(s);
    case Tick => TickDefers(s);
    case SleepCall(_) => BlockDefers(s, c);
    case RecvTimeCall(_) => BlockDefers(s, c);
    case ReceiveCall => BlockDefers(s, c);
    case SendCall(p, m) => SentDefers(s, p, m);
    case KillCall(p) => if 0 <= p < NPROC { SentDefers(s, s.procs[p].parent, p); }
    case SuspendCall(p) => SuspendDefers(s, p);
    case ResumeCall(p) => ResumeDefers(s, p);
    case KillRest(p) => RemovedDefers(s, p);
    case DeferCall => assert Start(s).ndefers == s.ndefers + 1 by { StartDefers(s); }
    case ReceiveRest =>
    case RecvTimeRest =>
    case RecvClrCall =>
    case CreateCall(_, _) =>
    case _ => SemaphoreDefers(s, c);
  }

  lemma StartDefers(s: Sys)
    ensures Start(s).ndefers == s.ndefers + 1
  {
  }

  lemma SentDefers(s: Sys, p: int, m: int)
    requires Inv(s)
    ensures !BadPid(s, p) && !s.procs[p].hasmsg ==> Sent(s, p, m).ndefers == s.ndefers
  {
    hide Shape, MsgsBut, SemsBut, SleepBut, SchedOK, HomeOK, ReadyOK, PrioOK, OneCurr, Readied;
    if !BadPid(s, p) && !s.procs[p].hasmsg {
      SentInv(s, p, m);
    }
  }

  lemma SuspendDefers(s: Sys, p: int)
    requires Inv(s) && CallOK(s, SuspendCall(p))
    ensures Apply(s, SuspendCall(p)).ndefers == s.ndefers
  {
    hide Shape, MsgsBut, SemsBut, SleepBut, SchedOK, HomeOK, ReadyOK, PrioOK, OneCurr, Resched, Drop;
    if !BadPid(s, p) && p != NULLPROC && s.procs[p].state == Curr {
      SuspendCurr(s, p);
      BecameMid(s, s.procs[s.curr].(state := Susp), Outside);
      ReschedDefers(Became(s, s.procs[s.curr].(state := Susp), Outside));
    }
  }

  lemma ResumeDefers(s: Sys, p: int)
    requires Inv(s) && CallOK(s, ResumeCall(p))
    ensures Apply(s, ResumeCall(p)).ndefers == s.ndefers
  {
    hide Shape, MsgsBut, SemsBut, SleepBut, SchedOK, HomeOK, ReadyOK, PrioOK, OneCurr, Readied;
    if !BadPid(s, p) && s.procs[p].state == Susp {
      ResumeMid(s, p);
    }
  }

  lemma RemovedDefers(s: Sys, p: int)
    requires Inv(s) && 0 < p < NPROC && (p == s.curr ==> s.ndefers == 0)
    ensures Removed(s, p).ndefers == s.ndefers
  {
    hide Shape, MsgsBut, SemsBut, SleepBut, SchedOK, HomeOK, ReadyOK, PrioOK, OneCurr, Resched, Drop;
    match s.procs[p].state
    case Curr =>
      CurrIs(s, p);
      BecameMid(s, s.procs[s.curr].(state := Free), Outside);
      ReschedDefers(Became(s, s.procs[s.curr].(state := Free), Outside));
    case Sleep => UnslumberMid(s, p);
    case RecTim => UnslumberMid(s, p);
    case Wait => UnwaitMid(s, p);
    case Ready => UnreadyMid(s, p, Free);
    case _ =>
  }

  lemma BlockDefers(s: Sys, c: Call)
    requires Inv(s) && CallOK(s, c) && (c.SleepCall? || c.RecvTimeCall? || c.ReceiveCall?)
    ensures Apply(s, c).ndefers == s.ndefers
  {
    hide Shape, MsgsBut, SemsBut, SleepBut, SchedOK, HomeOK, ReadyOK, PrioOK, OneCurr, Resched, Sleeping;
    var pr := s.procs[s.curr];
    if c.SleepCall? && c.delay == 0 {
      ReschedDefers(s);
    } else if c.SleepCall? {
      SleepingMid(s, c.delay, Sleep, Outside);
      ReschedDefers(Sleeping(s, c.delay, Sleep, Outside));
    } else if !pr.hasmsg && c.ReceiveCall? {
      BecameMid(s, pr.(state := Recv), InReceive);
      ReschedDefers(Became(s, pr.(state := Recv), InReceive));
    } else if !pr.hasmsg && c.maxwait >= 0 {
      SleepingMid(s, c.maxwait, RecTim, InRecvTime);
      ReschedDefers(Sleeping(s, c.maxwait, RecTim, InRecvTime));
    }
  }

  lemma TickDefers(s: Sys)
    requires Inv(s)
    ensures Ticked(s).ndefers == s.ndefers
  {
    hide Shape, MsgsBut, SemsBut, SleepBut, SchedOK, HomeOK, ReadyOK, PrioOK, OneCurr, Resched, WakeLoop, Stop;
    if s.lists.on[s.sleepq] == [] {
      ReschedDefers(s);
    } else {
      TickMid(s);
      var s1 := Ticked1(s);
      InvSound(s);
      TickedList(s);
      if s1.lists.key[First(s, s.sleepq)] <= 0 {
        WakeStart(s1);
        StopDefers(WakeLoop(Start(s1)));
      } else {
        ReschedDefers(s1);
      }
    }
  }

  lemma SemaphoreDefers(s: Sys, c: Call)
    requires Inv(s) && CallOK(s, c) && OnSemaphore(c)
    ensures Apply(s, c).ndefers == s.ndefers
  {
    hide Mid, Core, SchedOK, FindSem, Waited, SignalledN, ResetTo, Deleted, Signal1;
    InvParts(s);
    if !c.SemCreateCall? && SemInUse(s, c.sem) {
      SemCount(s);
      var i := c.sem;
      match c {
        case WaitCall(_) => WaitDefers(s, i);
        case SignalNCall(_, n) => if n >= 0 { SignalNDefers(s, i, n); }
        case SemResetCall(_, n) => if n >= 0 { ResetDefers(s, i, n); }
        case SemDeleteCall(_) => DeletedDefers(s, i);
        case _ =>
      }
    }
  }

  lemma WaitDefers(s: Sys, i: int)
    requires Inv(s) && CallOK(s, WaitCall(i)) && 0 <= i < NSEM && SemInUse(s, i)
    ensures Waited(s, i).ndefers == s.ndefers
  {
    hide Shape, MsgsBut, SemsBut, SleepBut, SchedOK, HomeOK, ReadyOK, PrioOK, OneCurr, Resched;
    WaitInv(s, i);
    var s1 := SetCount(s, i, s.sems[i].count - 1);
    if s.sems[i].count <= 0 {
      OpenSem(s, EMPTY, i, 0);
      SemMid(s, EMPTY, i, 0, s1.sems[i]);
      WaitingMid(s1, i, 0);
      ReschedDefers(Waiting(s1, i));
    }
  }

  lemma SignalNDefers(s: Sys, i: int, n: nat)
    requires Inv(s) && 0 <= i < NSEM && s.sems[i].used
    ensures SignalledN(s, i, n).ndefers == s.ndefers
  {
    hide Shape, LooseBut, MsgsBut, SemsBut, SleepBut, SchedOK, SignalLoop, Stop;
    InvSound(s);
    StartMid(s, EMPTY, 0);
    StopDefers(SignalLoop(Start(s), i, n));
  }

  lemma ResetDefers(s: Sys, i: int, n: nat)
    requires Inv(s) && 0 <= i < NSEM && s.sems[i].used
    ensures ResetTo(s, i, n).ndefers == s.ndefers
  {
    hide Shape, LooseBut, MsgsBut, SemsBut, SleepBut, SchedOK, ReleaseAll, Stop;
    InvSound(s);
    StartMid(s, EMPTY, 0);
    OpenSem(Start(s), EMPTY, i, 0);
    var s1 := ReleaseAll(Start(s), i);
    SetCountInv(s1, i, s1.sems[i].(count := n));
    StopDefers(SetCount(s1, i, n));
  }

  lemma DeletedDefers(s: Sys, i: int)
    requires Inv(s) && 0 <= i < NSEM && s.sems[i].used
    ensures Deleted(s, i).ndefers == s.ndefers
  {
    hide Shape, LooseBut, MsgsBut, SemsBut, SleepBut, SchedOK, DeleteLoop, Stop;
    InvSound(s);
    DeleteStart(s, i);
    var s0 := s.(sems := s.sems[i := s.sems[i].(used := false)]);
    StopDefers(DeleteLoop(Start(s0), i));
  }

  /** Deferral that is ended at once has had no effect. */
  lemma DeferUndefer(s: Sys)
    requires Inv(s) && CallOK(s, DeferCall)
    ensures var t := Apply(s, DeferCall);
            CallOK(t, UndeferCall) && Apply(t, UndeferCall) == if s.ndefers == 0 then s.(attempt := false) else s
  {
    hide Mid, SchedOK;
    InvParts(s);
    StartMid(s, EMPTY, 0);
  }

  // ---- the clock goes round -----------------------------------------------------------------------------

  /** The first k on the ready list have the priority of the current process, the others a lower one. */
  ghost predicate Peers(s: Sys, k: nat)
    requires Sound(s)
  {
    && 0 <= s.curr < |s.procs| && k <= |ReadyList(s)|
    && (forall j :: 0 <= j < |ReadyList(s)| ==> 0 <= ReadyList(s)[j] < |s.procs|)
    && (forall j :: 0 <= j < k ==> s.procs[ReadyList(s)[j]].prio == s.procs[s.curr].prio)
    && (forall j :: k <= j < |ReadyList(s)| ==> s.procs[ReadyList(s)[j]].prio < s.procs[s.curr].prio)
  }

  /** insert puts the current process behind its peers. */
  lemma PeersPlace(s: Sys, k: nat)
    requires Core(s) && Peers(s, k)
    ensures Keyed(ReadyList(s), s.lists.key) && InsertPos(ReadyList(s), s.lists.key, s.procs[s.curr].prio, 0) == k
    ensures s.lists.home[s.curr] == EMPTY && FirstKey(s) <= s.procs[s.curr].prio
    ensures k > 0 ==> FirstKey(s) == s.procs[s.curr].prio
    ensures k == 0 ==> FirstKey(s) < s.procs[s.curr].prio
  {
    hide Shape, NoDup, Descending;
    InRange(s, s.readylist);
    assert HomeOK(s, s.curr);
    var l := ReadyList(s);
    forall j | 0 <= j < |l|
      ensures s.lists.key[l[j]] == s.procs[l[j]].prio
    {
      OnHome(s.lists, s.readylist, l[j]);
    }
    if k < |l| {
      assert s.lists.key[l[k]] < s.procs[s.curr].prio;
    }
  }

  /** Resched gives the processor to the first of the peers and puts the current process behind the
      last of them; with no peers nothing changes. */
  lemma PeersRotate(s: Sys, k: nat)
    requires Core(s) && s.ndefers == 0 && Peers(s, k)
    ensures CanRun(s) && Core(Resched(s)) && Peers(Resched(s), k) && Resched(s).ndefers == 0
    ensures Ring(Resched(s), k) == Turned(Ring(s, k))
  {
    hide Shape, NoDup, Descending, InsertPos;
    SomeoneCanRun(s);
    PeersPlace(s, k);
    ReschedOK(s);
    var l, t := ReadyList(s), Resched(s);
    if k == 0 {
      assert Ring(s, k) == [s.curr];
    } else {
      PutReady(s, s.curr);
      RingTurns(l, s.curr, k);
      RotatedPeers(s, t, k);
    }
  }

  lemma RingTurns(l: seq<int>, c: int, k: nat)
    requires 0 < k <= |l|
    ensures Drop(Put(l, k, c), 0) == l[1..k] + [c] + l[k..] && Put(l, k, c)[0] == l[0]
    ensures [l[0]] + (l[1..k] + [c] + l[k..])[..k] == Turned([c] + l[..k])
  {
  }

  lemma RotatedPeers(s: Sys, t: Sys, k: nat)
    requires Sound(s) && Sound(t) && Peers(s, k) && 0 < k && t.curr == ReadyList(s)[0]
    requires ReadyList(t) == ReadyList(s)[1..k] + [s.curr] + ReadyList(s)[k..]
    requires |t.procs| == |s.procs| && forall p :: 0 <= p < |s.procs| ==> t.procs[p].prio == s.procs[p].prio
    ensures Peers(t, k)
  {
    hide Sound;
    var l := ReadyList(s);
    assert forall j ::
           0 <= j < |l| ==> ReadyList(t)[j] == if j < k - 1 then l[j + 1] else if j == k - 1 then s.curr else l[j];
  }

  /** The current process and its peers, in the order in which they come to run. */
  ghost function Ring(s: Sys, k: nat): (r: seq<int>)
    requires Sound(s) && Peers(s, k)
    ensures |r| == k + 1 && r[0] == s.curr
  {
    [s.curr] + ReadyList(s)[..k]
  }

  /** The first becomes the last. */
  function Turned(r: seq<int>): seq<int>
    requires r != []
  {
    r[1..] + [r[0]]
  }

  /** No sleeper is due within n ticks. */
  ghost predicate Quiet(s: Sys, n: nat)
    requires Sound(s)
  {
    Sleepers(s) == [] || (0 <= Sleepers(s)[0] < |s.lists.key| && s.lists.key[Sleepers(s)[0]] > n)
  }

  lemma TickTurns(s: Sys, k: nat, n: nat)
    requires Inv(s) && Sound(s) && s.ndefers == 0 && Peers(s, k) && Quiet(s, n) && n > 0
    ensures var t := Apply(s, Tick);
            Sound(t) && t.ndefers == 0 && Peers(t, k) && Quiet(t, n - 1) && Ring(t, k) == Turned(Ring(s, k))
  {
    hide Shape, MsgsBut, SemsBut, SleepBut, SchedOK, HomeOK, ReadyOK, PrioOK, OneCurr, Resched, WakeLoop, Stop, Peers,
        Ring, Turned;
    if Sleepers(s) == [] {
      PeersRotate(s, k);
      ReschedSleep(s);
    } else {
      TickMid(s);
      TickedList(s);
      var s1 := Ticked1(s);
      assert Peers(s1, k) && Ring(s1, k) == Ring(s, k) by {
        SamePeers(s, s1, k);
      }
      PeersRotate(s1, k);
      ReschedSleep(s1);
    }
  }

  lemma SamePeers(s: Sys, t: Sys, k: nat)
    requires Sound(s) && Sound(t) && Peers(s, k) && t.procs == s.procs && t.curr == s.curr
             && ReadyList(t) == ReadyList(s)
    ensures Peers(t, k) && Ring(t, k) == Ring(s, k)
  {
  }

  ghost function Ticks(n: nat): seq<Call>
  {
    seq(n, i => Tick)
  }

  lemma {:induction false} TicksRun(s: Sys, n: nat)
    requires Inv(s)
    ensures RunOK(s, Ticks(n))
    decreases n
  {
    hide Inv, Apply, CallOK;
    if n > 0 {
      assert Ticks(n)[1..] == Ticks(n - 1) && Ticks(n)[0] == Tick;
      TickLegal(s);
      TicksRun(Apply(s, Tick), n - 1);
    }
  }

  lemma TickLegal(s: Sys)
    requires Inv(s)
    ensures CallOK(s, Tick)
  {
  }

  /** Round robin: while no sleeper is due and rescheduling is not deferred, the clock gives the
      processor to all processes of the highest priority in turn, and to no other. */
  lemma {:induction false} RoundRobin(s: Sys, k: nat, n: nat)
    requires Inv(s) && Sound(s) && s.ndefers == 0 && Peers(s, k) && Quiet(s, n)
    ensures RunOK(s, Ticks(n)) && Run(s, Ticks(n)).curr == Ring(s, k)[n % (k + 1)]
    decreases n
  {
    hide Inv, Apply, CallOK, Peers, Quiet, Sound, Ring;
    TicksRun(s, n);
    if n > 0 {
      var t := Apply(s, Tick);
      assert Ticks(n)[1..] == Ticks(n - 1) && Ticks(n)[0] == Tick;
      TickLegal(s);
      TickTurns(s, k, n);
      RoundRobin(t, k, n - 1);
      NextTurn(Ring(s, k), n);
    }
  }

  lemma NextTurn(r: seq<int>, n: nat)
    requires r != [] && n > 0
    ensures Turned(r)[(n - 1) % |r|] == r[n % |r|]
  {
    var k := |r|;
    var q, m := (n - 1) / k, (n - 1) % k;
    assert n == q * k + m + 1;
    if m + 1 < k {
      Residue(q, k, m + 1);
    } else {
      assert n == (q + 1) * k;
      Residue(q + 1, k, 0);
    }
  }

  lemma Residue(q: int, k: nat, m: nat)
    requires m < k
    ensures (q * k + m) % k == m
  {
    var y, z := (q * k + m) / k, (q * k + m) % k;
    var d := y - q;
    assert d * k == m - z;
    if d >= 1 {
      Product(d - 1, k);
    } else if d <= -1 {
      Product(-1 - d, k);
    }
  }

  lemma Product(a: int, b: int)
    requires a >= 0 && b >= 0
    ensures a * b >= 0
  {
  }

  /** There are always such peers. */
  lemma PeersThere(s: Sys) returns (k: nat)
    requires Inv(s) && s.ndefers == 0
    ensures Sound(s) && Peers(s, k)
  {
    hide Shape, NoDup, SemsBut, SleepBut, MsgsBut;
    InRange(s, s.readylist);
    var l := ReadyList(s);
    forall j | 0 <= j < |l|
      ensures s.lists.key[l[j]] == s.procs[l[j]].prio <= s.procs[s.curr].prio
    {
      OnHome(s.lists, s.readylist, l[j]);
      ReadyState(s, l[j]);
    }
    k := InsertPos(l, s.lists.key, s.procs[s.curr].prio, 0);
    forall j | k <= j < |l|
      ensures s.procs[l[j]].prio < s.procs[s.curr].prio
    {
      assert s.lists.key[l[k]] >= s.lists.key[l[j]];
    }
  }
}
