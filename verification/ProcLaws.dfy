// What each kernel call does to each process: its state, its message, its priority, its parent.
// Everything is said in terms of the call and the state before it; who of the processes that may run
// is the current one is left to the scheduling laws.

module ProcLaws {

  import opened Common
  import opened Queues
  import opened Delta
  import opened Sched
  import opened Calls
  import opened Procs
  import opened Kernel
  import opened KernelRun
  import opened Semaphores
  import opened SemaphoreLaws
  import opened SleepLaws

  /** Current or ready: the process may run. */
  const RUNNABLE := {Curr, Ready}

  /** Entry b is entry a, where being current and being ready count as the same. */
  predicate Alike(a: Proc, b: Proc)
  {
    b == a.(state := b.state) && (b.state == a.state || (a.state in RUNNABLE && b.state in RUNNABLE))
  }

  /** The processes of w were made ready, and that is all that happened to any process. */
  ghost predicate MadeReady(s: Sys, t: Sys, w: set<int>)
  {
    && Sound(s) && Sound(t) && t.at == s.at
    && forall p :: 0 <= p < NPROC ==> Alike(if p in w then s.procs[p].(state := Ready) else s.procs[p], t.procs[p])
  }

  lemma MadeReadyTrans(s: Sys, t: Sys, u: Sys, v: set<int>, w: set<int>)
    requires MadeReady(s, t, v) && MadeReady(t, u, w)
    ensures MadeReady(s, u, v + w)
  {
    hide Sound;
    Sizes3(s, t, u);
    forall p | 0 <= p < NPROC
      ensures Alike(if p in v + w then s.procs[p].(state := Ready) else s.procs[p], u.procs[p])
    {
      assert Alike(if p in v then s.procs[p].(state := Ready) else s.procs[p], t.procs[p]);
      assert Alike(if p in w then t.procs[p].(state := Ready) else t.procs[p], u.procs[p]);
    }
  }

  lemma Sizes3(s: Sys, t: Sys, u: Sys)
    requires Sound(s) && Sound(t) && Sound(u)
    ensures |s.procs| == |t.procs| == |u.procs| == NPROC
  {
  }

  lemma NothingMade(s: Sys, t: Sys)
    requires Sound(s) && Sound(t) && t.procs == s.procs && t.at == s.at
    ensures MadeReady(s, t, {})
  {
    hide Shape;
  }

  lemma ReadyOnlyMade(s: Sys, t: Sys, e: int)
    requires Sound(s) && Sound(t) && ReadyOnly(s, t, e)
    ensures MadeReady(s, t, if e == EMPTY then {} else {e})
  {
    hide Shape;
    forall p | 0 <= p < NPROC
      ensures Alike(if p == e then s.procs[p].(state := Ready) else s.procs[p], t.procs[p])
    {
      assert OnlyState(s.procs[p], t.procs[p], p == e);
    }
  }

  lemma ReschedMade(s: Sys)
    requires LooseBut(s, EMPTY) && (s.ndefers > 0 ==> s.procs[s.curr].state == Curr)
    ensures CanRun(s) && MadeReady(s, Resched(s), {})
  {
    hide Shape, Resched, ReadyOnly, LooseBut;
    ReschedOnly(s);
    LooseSound(s, EMPTY);
    ReadyOnlyMade(s, Resched(s), EMPTY);
  }

  lemma ReadiedMade(s: Sys, p: int)
    requires LooseBut(s, p) && 0 <= p < NPROC && s.procs[p].state != Free && s.procs[s.curr].state == Curr
             && p != s.curr
    ensures MadeReady(s, Readied(s, p), {p})
  {
    hide Shape, ReadyOnly, Readied;
    ReadyOnlyMade(s, Readied(s, p), p);
  }

  lemma StopMade(s: Sys)
    requires Core(s)
    ensures MadeReady(s, Stop(s), {})
  {
    hide Shape, Resched, MadeReady;
    LooseSound(s, EMPTY);
    NothingMade(s, s);
    if s.ndefers > 0 {
      var s1 := s.(ndefers := s.ndefers - 1);
      FrameLoose(s, s1, EMPTY);
      LooseSound(s1, EMPTY);
      NothingMade(s, s1);
      if s1.ndefers == 0 && s.attempt {
        ReschedMade(s1);
        var none: set<int> := {};
        MadeReadyTrans(s, s1, Resched(s1), none, none);
        assert none + none == none;
      }
    }
  }

  // ---- semaphores ---------------------------------------------------------------------------------

  /** The first n elements. */
  ghost function Taken(l: seq<int>, n: nat): set<int>
  {
    Elems(if n <= |l| then l[..n] else l)
  }

  lemma TakenOne(l: seq<int>, n: nat)
    requires n > 0
    ensures Taken(l, 1) + Taken(Skip(l, 1), n - 1) == Taken(l, n)
    ensures l == [] ==> Taken(l, n) == {}
    ensures l != [] ==> Taken(l, 1) == {l[0]}
  {
    if l != [] {
      assert l == [l[0]] + l[1..];
      var k := if n <= |l| then n else |l|;
      assert l[..k] == [l[0]] + l[1..][..k - 1];
      assert l[..1] == [l[0]];
    }
  }

  lemma TakenAll(l: seq<int>)
    ensures Taken(l, |l|) == Elems(l)
  {
    assert l[..|l|] == l;
  }

  lemma Signal1Made(s: Sys, i: int)
    requires Mid(s, EMPTY, EMPTY, 0) && Core(s) && 0 <= i < NSEM && s.sems[i].used
    ensures Sound(s) && MadeReady(s, Signal1(s, i), Taken(WaitersOf(s, i), 1))
  {
    hide Shape, MadeReady, SemsBut, MsgsBut, SleepBut, SchedOK, HomeOK, ReadyOK, Readied, PrioOK, OneCurr, Taken,
        WaitersOf;
    SignalInv(s, i);
    CoreSound(s);
    WaitersBalanced(s, i);
    var s1 := SetCount(s, i, s.sems[i].count + 1);
    var q := s.sems[i].queue;
    TakenOne(WaitersOf(s, i), 1);
    if s.sems[i].count < 0 {
      var p, s2 := First(s1, q), Popped(s1, q);
      NothingMade(s, s2);
      ReadiedMade(s2, p);
      MadeReadyTrans(s, s2, Readied(s2, p), {}, {p});
      assert {} + {p} == {p};
    } else {
      NothingMade(s, s1);
    }
  }

  lemma WaitersBalanced(s: Sys, i: int)
    requires Mid(s, EMPTY, EMPTY, 0) && Sound(s) && 0 <= i < NSEM && s.sems[i].used
    ensures s.sems[i].queue in s.lists.on && WaitersOf(s, i) == s.lists.on[s.sems[i].queue]
    ensures s.sems[i].count < 0 <==> WaitersOf(s, i) != []
  {
    hide Shape, LooseBut, MsgsBut, SleepBut;
    assert CountOK(s, i);
  }

  lemma {:induction false} SignalLoopMade(s: Sys, i: int, n: nat)
    requires Mid(s, EMPTY, EMPTY, 0) && Core(s) && 0 <= i < NSEM && s.sems[i].used
    ensures Sound(s) && MadeReady(s, SignalLoop(s, i, n), Taken(WaitersOf(s, i), n))
    decreases n
  {
    hide Shape, MadeReady, Mid, Core, SchedOK, Signal1, Taken, WaitersOf;
    CoreSound(s);
    if n == 0 {
      NothingMade(s, s);
      NoneTaken(WaitersOf(s, i));
    } else {
      var s1 := Signal1(s, i);
      Signal1Made(s, i);
      Signal1Queue(s, i);
      CoreSound(s1);
      SignalLoopMade(s1, i, n - 1);
      MadeReadyTrans(s, s1, SignalLoop(s1, i, n - 1), Taken(WaitersOf(s, i), 1), Taken(WaitersOf(s1, i), n - 1));
      TakenOne(WaitersOf(s, i), n);
    }
  }

  lemma NoneTaken(l: seq<int>)
    ensures Taken(l, 0) == {}
  {
  }

  lemma SignalledNMade(s: Sys, i: int, n: nat)
    requires Inv(s) && 0 <= i < NSEM && s.sems[i].used
    ensures Sound(s) && MadeReady(s, SignalledN(s, i, n), Taken(WaitersOf(s, i), n))
  {
    hide Shape, MadeReady, MsgsBut, SemsBut, SleepBut, SchedOK, HomeOK, ReadyOK, PrioOK, OneCurr, Stop, SignalLoop,
        Taken;
    StartMid(s, EMPTY, 0);
    QueueOf(s, i);
    var w := Taken(WaitersOf(s, i), n);
    var s1 := SignalLoop(Start(s), i, n);
    NothingMade(s, Start(s));
    SignalLoopMade(Start(s), i, n);
    MadeReadyTrans(s, Start(s), s1, {}, w);
    StopMade(s1);
    MadeReadyTrans(s, s1, Stop(s1), {} + w, {});
    assert {} + w + {} == w;
  }

  lemma ReleasedMade(s: Sys, i: int)
    requires Mid(s, EMPTY, i, 0) && Core(s) && 0 <= i < NSEM && s.lists.on[s.sems[i].queue] != []
    ensures Sound(s) && MadeReady(s, Released(s, i), {s.lists.on[s.sems[i].queue][0]})
  {
    hide Shape, MadeReady, MsgsBut, SemsBut, SleepBut, SchedOK, HomeOK, ReadyOK, Readied, PrioOK, OneCurr;
    var q := s.sems[i].queue;
    ReleaseInv(s, i);
    QueueOf(s, i);
    var p, s2 := First(s, q), Popped(s, q);
    NothingMade(s, s2);
    ReadiedMade(s2, p);
    MadeReadyTrans(s, s2, Readied(s2, p), {}, {p});
    assert {} + {p} == {p};
  }

  lemma {:induction false} ReleaseAllMade(s: Sys, i: int)
    requires Mid(s, EMPTY, i, 0) && Core(s) && 0 <= i < NSEM
    ensures Sound(s) && MadeReady(s, ReleaseAll(s, i), Elems(WaitersOf(s, i)))
    decreases |s.lists.on[s.sems[i].queue]|
  {
    hide Shape, MadeReady, LooseBut, MsgsBut, SemsBut, SleepBut, SchedOK;
    CoreSound(s);
    var l := WaitersOf(s, i);
    if l == [] {
      NothingMade(s, s);
      assert Elems(l) == {};
    } else {
      var u := Released(s, i);
      ReleasedMade(s, i);
      ReleaseAllMade(u, i);
      MadeReadyTrans(s, u, ReleaseAll(u, i), {l[0]}, Elems(l[1..]));
      FirstAndRest(l);
    }
  }

  lemma FirstAndRest(l: seq<int>)
    requires l != []
    ensures {l[0]} + Elems(l[1..]) == Elems(l)
  {
    assert l == [l[0]] + l[1..];
  }

  lemma {:induction false} DeleteLoopMade(s: Sys, i: int)
    requires DeleteReady(s, i)
    ensures Sound(s) && MadeReady(s, DeleteLoop(s, i), Elems(WaitersOf(s, i)))
    decreases QueueLength(s, i)
  {
    hide MadeReady, Mid, Core, Released, DeleteLoop, Elems, Sound;
    CoreSound(s);
    DeleteStep(s, i);
    var s1 := SetCount(s, i, s.sems[i].count + 1);
    CoreSound(s1);
    QueueKept(s, i, s.sems[i].count + 1);
    NothingMade(s, s1);
    BalancedQueue(s, i);
    var l := WaitersOf(s, i);
    if s.sems[i].count >= 0 {
      NoElems();
    } else {
      var u := Released(s1, i);
      ReleasedMade(s1, i);
      CoreSound(u);
      DeleteLoopMade(u, i);
      ReleasedQueue(s1, i);
      MadeReadyTrans(s, s1, u, {}, {l[0]});
      MadeReadyTrans(s, u, DeleteLoop(u, i), {} + {l[0]}, Elems(l[1..]));
      FirstAndRest(l);
      assert {} + {l[0]} + Elems(l[1..]) == Elems(l);
    }
  }

  lemma NoElems()
    ensures Elems([]) == {}
  {
  }

  lemma QueueKept(s: Sys, i: int, n: int)
    requires Sound(s) && 0 <= i < NSEM && Sound(SetCount(s, i, n))
    ensures |s.sems| == NSEM && WaitersOf(SetCount(s, i, n), i) == WaitersOf(s, i)
    ensures SetCount(s, i, n).lists.on[SetCount(s, i, n).sems[i].queue] == WaitersOf(s, i)
    ensures SetCount(s, i, n).procs == s.procs && SetCount(s, i, n).at == s.at
  {
  }

  lemma BalancedQueue(s: Sys, i: int)
    requires DeleteReady(s, i) && Sound(s)
    ensures s.sems[i].count >= 0 <==> WaitersOf(s, i) == []
  {
  }

  lemma ReleasedQueue(s: Sys, i: int)
    requires Mid(s, EMPTY, i, 0) && Core(s) && Sound(s) && 0 <= i < NSEM && s.lists.on[s.sems[i].queue] != []
    requires Sound(Released(s, i))
    ensures WaitersOf(Released(s, i), i) == WaitersOf(s, i)[1..]
  {
  }

  lemma ResetMade(s: Sys, i: int, n: nat)
    requires Inv(s) && 0 <= i < NSEM && s.sems[i].used
    ensures Sound(s) && MadeReady(s, ResetTo(s, i, n), Elems(WaitersOf(s, i)))
  {
    hide Shape, MadeReady, LooseBut, MsgsBut, SemsBut, SleepBut, SchedOK, ReleaseAll, Stop, Elems;
    InvSound(s);
    StartMid(s, EMPTY, 0);
    OpenSem(Start(s), EMPTY, i, 0);
    CoreSound(Start(s));
    var w := Elems(WaitersOf(s, i));
    NothingMade(s, Start(s));
    var s1 := ReleaseAll(Start(s), i);
    ReleaseAllMade(Start(s), i);
    CoreSound(s1);
    MadeReadyTrans(s, Start(s), s1, {}, w);
    SetCountInv(s1, i, s1.sems[i].(count := n));
    var s2 := SetCount(s1, i, n);
    CoreSound(s2);
    NothingMade(s1, s2);
    MadeReadyTrans(s, s1, s2, {} + w, {});
    StopMade(s2);
    MadeReadyTrans(s, s2, Stop(s2), {} + w + {}, {});
    assert {} + w + {} + {} == w;
  }

  lemma DeletedMade(s: Sys, i: int)
    requires Inv(s) && 0 <= i < NSEM && s.sems[i].used
    ensures Sound(s) && MadeReady(s, Deleted(s, i), Elems(WaitersOf(s, i)))
  {
    hide Shape, MadeReady, LooseBut, MsgsBut, SemsBut, SleepBut, SchedOK, DeleteLoop, Stop, Elems;
    InvSound(s);
    DeleteStart(s, i);
    var s0 := s.(sems := s.sems[i := s.sems[i].(used := false)]);
    CoreSound(Start(s0));
    var w := Elems(WaitersOf(s, i));
    NothingMade(s, Start(s0));
    var s1 := DeleteLoop(Start(s0), i);
    DeleteLoopMade(Start(s0), i);
    CoreSound(s1);
    MadeReadyTrans(s, Start(s0), s1, {}, w);
    StopMade(s1);
    MadeReadyTrans(s, s1, Stop(s1), {} + w, {});
    assert {} + w + {} == w;
  }

  // ---- the clock ----------------------------------------------------------------------------------

  /** Who has left the sleep queue. */
  ghost function Rose(s: Sys, t: Sys): set<int>
    requires Sound(s) && Sound(t)
  {
    Elems(Sleepers(s)) - Elems(Sleepers(t))
  }

  lemma {:induction false} WakeLoopMade(s: Sys)
    requires WakeReady(s)
    ensures Sound(s) && Sound(WakeLoop(s)) && MadeReady(s, WakeLoop(s), Rose(s, WakeLoop(s)))
    decreases if Sound(s) then |Sleepers(s)| else 0
  {
    hide Mid, Sound, MadeReady, WakeLoop, Elems, LooseBut, KeysOn, Expired;
    WakingFacts(s);
    CoreSound(WakeLoop(s));
    if Sleepers(s) != [] && s.lists.key[Sleepers(s)[0]] <= 0 {
      var u := WakeTurnMade(s);
      CoreSound(u);
      WakeLoopMade(u);
      var t, p := WakeLoop(s), Sleepers(s)[0];
      MadeReadyTrans(s, u, t, {p}, Rose(u, t));
      Awake(s, u, t, p);
    } else {
      NothingMade(s, s);
      assert Rose(s, s) == {};
    }
  }

  /** One turn of the loop of wakeup, seen from the processes. */
  lemma WakeTurnMade(s: Sys) returns (u: Sys)
    requires WakeReady(s) && Sound(s) && Sleepers(s) != [] && 0 <= Sleepers(s)[0] < |s.lists.key|
             && s.lists.key[Sleepers(s)[0]] <= 0
    ensures WakeReady(u) && Sound(u) && WakeLoop(s) == WakeLoop(u) && u.sleepq == s.sleepq
    ensures Sleepers(u) == Sleepers(s)[1..] && MadeReady(s, u, {Sleepers(s)[0]}) && 0 <= Sleepers(s)[0] < NPROC
  {
    hide Shape, MadeReady, Kept, MsgsBut, SemsBut, SleepBut, SchedOK, HomeOK, ReadyOK, PrioOK, OneCurr, Readied, KeysOn;
    PopSleepMid(s);
    var p, s1 := First(s, s.sleepq), Popped(s, s.sleepq);
    WokenIs(s1, p, EMPTY, 0);
    u := Readied(s1, p);
    ReadiedKept(s1, p);
    KeptSleep(s1, u, EMPTY, EMPTY);
    KeptKeys(s1, u);
    WakeShrinks(s);
    NothingMade(s, s1);
    ReadiedMade(s1, p);
    MadeReadyTrans(s, s1, u, {}, {p});
    assert {} + {p} == {p};
  }

  /** The one who has been woken is not on the queue any more. */
  lemma Awake(s: Sys, u: Sys, t: Sys, p: int)
    requires Sound(s) && Sound(u) && Core(t) && Sound(t) && Sleepers(s) != [] && p == Sleepers(s)[0] && 0 <= p < NPROC
    requires Sleepers(u) == Sleepers(s)[1..] && MadeReady(s, t, {p} + Rose(u, t))
    ensures {p} + Rose(u, t) == Rose(s, t)
  {
    hide Sound, LooseBut;
    Sizes3(s, u, t);
    assert Alike(s.procs[p].(state := Ready), t.procs[p]);
    AsleepIsListed(t, p);
    FirstAndRest(Sleepers(s));
  }

  lemma TickedMade(s: Sys)
    requires Inv(s)
    ensures Sound(s) && Sound(Ticked(s)) && MadeReady(s, Ticked(s), Rose(s, Ticked(s)))
  {
    hide Shape, MadeReady, Kept, MsgsBut, SemsBut, SleepBut, SchedOK, HomeOK, ReadyOK, PrioOK, OneCurr, Resched,
        WakeLoop, Stop, Elems, SleepSame;
    InvSound(s);
    InvSound(Ticked(s));
    var none: set<int> := {};
    if Sleepers(s) == [] {
      ReschedMade(s);
      IdleRose(s);
    } else {
      TickMid(s);
      var s1 := Ticked1(s);
      CoreSound(s1);
      TickedList(s);
      NothingMade(s, s1);
      if s1.lists.key[First(s, s.sleepq)] <= 0 {
        WakenedMade(s1);
        MadeReadyTrans(s, s1, Wakened(s1), none, Rose(s1, Wakened(s1)));
        assert none + Rose(s1, Wakened(s1)) == Rose(s, Wakened(s1));
      } else {
        ReschedMade(s1);
        MadeReadyTrans(s, s1, Resched(s1), none, none);
        ReschedSleep(s1);
        assert none + none == Rose(s, Resched(s1));
      }
    }
  }

  lemma IdleRose(s: Sys)
    requires Inv(s) && Sound(s) && Sound(Ticked(s)) && Sleepers(s) == []
    ensures CanRun(s) && Ticked(s) == Resched(s) && Rose(s, Ticked(s)) == {}
  {
    hide Shape, SemsBut, SleepBut, MsgsBut, Resched, SchedOK, PrioOK, ReadyOK;
    ReschedMade(s);
  }

  lemma WakenedMade(s: Sys)
    requires WakeReady(s)
    ensures Sound(s) && Sound(Wakened(s)) && MadeReady(s, Wakened(s), Rose(s, Wakened(s)))
  {
    hide Shape, Mid, MadeReady, Kept, LooseBut, SchedOK, WakeLoop, Stop, Elems, SleepSame;
    CoreSound(s);
    WakeStart(s);
    var s2 := Start(s);
    CoreSound(s2);
    var s3 := WakeLoop(s2);
    CoreSound(s3);
    StopKept(s3);
    KeptSleep(s3, Stop(s3), EMPTY, EMPTY);
    NothingMade(s, s2);
    WakeLoopMade(s2);
    StopMade(s3);
    KeptKeys(s3, Stop(s3));
    var none: set<int> := {};
    var w := Rose(s2, s3);
    MadeReadyTrans(s, s2, s3, none, w);
    MadeReadyTrans(s, s3, Stop(s3), none + w, none);
    assert none + w + none == w == Rose(s, Stop(s3));
  }

  // ---- the table ----------------------------------------------------------------------------------

  /** A process that gets a message: receive and recvtime end with it. */
  function WithMessage(a: Proc, m: int): Proc
  {
    a.(msg := m, hasmsg := true, state := if a.state in {Recv, RecTim} then Ready else a.state)
  }

  /** Who is told when a process is killed, if anybody. */
  ghost predicate Tells(s: Sys, q: int, p: int)
  {
    !BadPid(s, q) && q != NULLPROC && s.procs[q].parent == p && !BadPid(s, p) && !s.procs[p].hasmsg
  }

  /** What call c makes of the entry of process p. */
  ghost function Entry(s: Sys, c: Call, p: int): Proc
    requires Inv(s) && CallOK(s, c) && 0 <= p < NPROC
  {
    InvLoose(s);
    var a := s.procs[p];
    var me := p == s.curr;
    match c
    case WaitCall(i) => if me && SemInUse(s, i) && s.sems[i].count <= 0 then a.(state := Wait, sem := i) else a
    case SignalCall(i) => if SemInUse(s, i) && p in Taken(WaitersOf(s, i), 1) then a.(state := Ready) else a
    case SignalNCall(i, n) => if SemInUse(s, i) && n >= 0 && p in Taken(WaitersOf(s, i), n) then a.(state := Ready)
        else a
    case SemResetCall(i, n) => if SemInUse(s, i) && n >= 0 && p in WaitersOf(s, i) then a.(state := Ready) else a
    case SemDeleteCall(i) => if SemInUse(s, i) && p in WaitersOf(s, i) then a.(state := Ready) else a
    case SleepCall(d) => if me && d > 0 then a.(state := Sleep) else a
    case ReceiveCall => if !me then a else if a.hasmsg then a.(hasmsg := false) else a.(state := Recv)
    case RecvTimeCall(d) =>
      if !me || d < 0 then a else if a.hasmsg then a.(hasmsg := false) else a.(state := RecTim)
    case ReceiveRest => if me then a.(hasmsg := false) else a
    case RecvTimeRest => if me then a.(hasmsg := false) else a
    case RecvClrCall => if me then a.(hasmsg := false) else a
    case SendCall(q, m) => if p == q && !BadPid(s, q) && !a.hasmsg then WithMessage(a, m) else a
    case KillCall(q) => if Tells(s, q, p) then WithMessage(a, q) else a
    case SuspendCall(q) => if p == q && q != NULLPROC && a.state in RUNNABLE then a.(state := Susp) else a
    case ResumeCall(q) => if p == q && a.state == Susp then a.(state := Ready) else a
    case CreateCall(g, prio) =>
      if g && prio >= 1 && p == FindPid(s.procs, s.nextpid, NPROC).0 then Proc(Susp, prio, -1, s.curr, a.msg, false)
         else a
    case KillRest(q) => if p == q then a.(state := Free) else a
    case Tick => if Asleep(s, p) && TimeLeft(s, p) <= Step1(s) then a.(state := Ready) else a
    case _ => a
  }

  /** Where process p stands after call c: inside receive or recvtime from when it has to wait there until
      it takes up the call again. */
  ghost function PlaceAfter(s: Sys, c: Call, p: int): Place
    requires Inv(s) && 0 <= p < |s.at| && 0 <= p < |s.procs|
  {
    if c.CreateCall? && s.procs[p].state == Free then Outside
    else if p != s.curr then s.at[p]
    else match c
      case ReceiveCall => if s.procs[p].hasmsg then Outside else InReceive
      case RecvTimeCall(d) => if s.procs[p].hasmsg || d < 0 then Outside else InRecvTime
      case ReceiveRest => Outside
      case RecvTimeRest => Outside
      case _ => s.at[p]
  }

  /** What a tick takes from the sleepers. */
  ghost function Step1(s: Sys): int
    requires LooseBut(s, EMPTY)
  {
    LooseSound(s, EMPTY);
    if Sleepers(s) != [] && 0 <= Sleepers(s)[0] < |s.lists.key| && s.lists.key[Sleepers(s)[0]] < 1 then 0 else 1
  }

  /** Every entry of t is what the call makes of it, where current and ready count as the same. */
  ghost predicate EntriesOK(s: Sys, c: Call, t: Sys)
    requires Inv(s) && CallOK(s, c)
  {
    && |s.procs| == |s.at| == |t.procs| == |t.at| == NPROC
    && (forall p :: 0 <= p < NPROC ==> Alike(Entry(s, c, p), t.procs[p]))
    && (forall p :: 0 <= p < NPROC && t.procs[p].state != Free ==> t.at[p] == PlaceAfter(s, c, p))
  }

  /** From the state before the last part of a call, which only makes processes ready. */
  lemma FromMade(s: Sys, c: Call, m: Sys, t: Sys, w: set<int>)
    requires Inv(s) && CallOK(s, c) && MadeReady(m, t, w) && |m.procs| == |m.at| == |s.procs| == |s.at| == NPROC
    requires forall p ::
             0 <= p < NPROC ==> Alike(Entry(s, c, p), if p in w then m.procs[p].(state := Ready) else m.procs[p])
    requires forall p :: 0 <= p < NPROC && Entry(s, c, p).state != Free ==> m.at[p] == PlaceAfter(s, c, p)
    ensures EntriesOK(s, c, t)
  {
    hide Inv, CallOK, Sound, Entry, PlaceAfter;
    Sizes3(m, t, t);
    forall p | 0 <= p < NPROC
      ensures Alike(Entry(s, c, p), t.procs[p])
    {
      assert Alike(if p in w then m.procs[p].(state := Ready) else m.procs[p], t.procs[p]);
    }
    forall p | 0 <= p < NPROC && t.procs[p].state != Free
      ensures t.at[p] == PlaceAfter(s, c, p)
    {
      assert Alike(Entry(s, c, p), t.procs[p]);
    }
  }

  /** Every call does to every process what the table says. */
  lemma EntriesLaw(s: Sys, c: Call)
    requires Inv(s) && CallOK(s, c)
    ensures EntriesOK(s, c, Apply(s, c))
  {
    hide Inv, CallOK, Apply, EntriesOK;
    match c
    case SleepCall(_) => SleepEntries(s, c);
    case RecvTimeCall(_) => SleepEntries(s, c);
    case YieldCall => RescheduleEntries(s, c);
    case DeferCall => RescheduleEntries(s, c);
    case UndeferCall => RescheduleEntries(s, c);
    case Tick => TickEntries(s);
    case ReceiveCall => ReceiveEntries(s, c);
    case ReceiveRest => ReceiveEntries(s, c);
    case RecvTimeRest => ReceiveEntries(s, c);
    case RecvClrCall => ReceiveEntries(s, c);
    case SendCall(q, m) => SendEntries(s, c, q, m);
    case KillCall(q) => KillCallEntries(s, q);
    case SuspendCall(q) => SuspendEntries(s, q);
    case ResumeCall(q) => ResumeEntries(s, q);
    case CreateCall(_, _) => CreateEntries(s, c);
    case KillRest(q) => KillEntries(s, q);
    case _ => SemaphoreEntries(s, c);
  }

  /** Nothing is made ready and the entries are what they should be. */
  lemma EntriesAtOnce(s: Sys, c: Call, t: Sys)
    requires Inv(s) && CallOK(s, c) && |t.procs| == |t.at| == |s.procs| == |s.at| == NPROC
    requires forall p :: 0 <= p < NPROC ==> t.procs[p] == Entry(s, c, p)
    requires forall p :: 0 <= p < NPROC && t.procs[p].state != Free ==> t.at[p] == PlaceAfter(s, c, p)
    ensures EntriesOK(s, c, t)
  {
    hide Inv, CallOK, Entry, PlaceAfter;
  }

  lemma RescheduleEntries(s: Sys, c: Call)
    requires Inv(s) && CallOK(s, c) && (c == YieldCall || c == DeferCall || c == UndeferCall)
    ensures EntriesOK(s, c, Apply(s, c))
  {
    hide Shape, SemsBut, SleepBut, MsgsBut, SchedOK, Resched, MadeReady, EntriesOK, PrioOK, ReadyOK, OneCurr, HomeOK;
    InvSound(s);
    SizesOf(s);
    match c
    case YieldCall =>
      ReschedMade(s);
      FromMade(s, c, s, Resched(s), {});
    case DeferCall => EntriesAtOnce(s, c, Start(s));
    case UndeferCall =>
      StopMade(s);
      FromMade(s, c, s, Stop(s), {});
  }

  lemma SemaphoreEntries(s: Sys, c: Call)
    requires Inv(s) && CallOK(s, c) && OnSemaphore(c)
    ensures EntriesOK(s, c, Apply(s, c))
  {
    hide Inv, CallOK, Waited, Signal1, SignalledN, ResetTo, Deleted, MadeReady, EntriesOK, Taken, WaitersOf, Sound;
    InvSound(s);
    SizesOf(s);
    if c.SemCreateCall? {
      CreatedSameProcs(s, c);
      EntriesAtOnce(s, c, Apply(s, c));
    } else if !SemInUse(s, c.sem) {
      EntriesAtOnce(s, c, Apply(s, c));
    } else {
      SemCount(s);
      match c {
        case WaitCall(i) => WaitEntries(s, i);
        case SignalCall(i) =>
          InvParts(s);
          Signal1Made(s, i);
          FromMade(s, c, s, Apply(s, c), Taken(WaitersOf(s, i), 1));
        case SignalNCall(i, n) =>
          if n >= 0 {
            SignalledNMade(s, i, n);
            FromMade(s, c, s, Apply(s, c), Taken(WaitersOf(s, i), n));
          } else {
            EntriesAtOnce(s, c, Apply(s, c));
          }
        case SemResetCall(i, n) =>
          if n >= 0 {
            ResetMade(s, i, n);
            FromMade(s, c, s, Apply(s, c), Elems(WaitersOf(s, i)));
          } else {
            EntriesAtOnce(s, c, Apply(s, c));
          }
        case SemDeleteCall(i) =>
          DeletedMade(s, i);
          FromMade(s, c, s, Apply(s, c), Elems(WaitersOf(s, i)));
      }
    }
  }

  lemma CreatedSameProcs(s: Sys, c: Call)
    requires Inv(s) && CallOK(s, c) && c.SemCreateCall?
    ensures Apply(s, c).procs == s.procs && Apply(s, c).at == s.at && Apply(s, c).ndefers == s.ndefers
  {
    hide Mid, SchedOK, FindSem;
  }

  lemma WaitEntries(s: Sys, i: int)
    requires Inv(s) && CallOK(s, WaitCall(i)) && SemInUse(s, i)
    ensures EntriesOK(s, WaitCall(i), Apply(s, WaitCall(i)))
  {
    hide Shape, MadeReady, EntriesOK, MsgsBut, SemsBut, SleepBut, SchedOK, HomeOK, ReadyOK, Resched, PrioOK, OneCurr;
    WaitInv(s, i);
    var s1 := SetCount(s, i, s.sems[i].count - 1);
    if s.sems[i].count <= 0 {
      OpenSem(s, EMPTY, i, 0);
      SemMid(s, EMPTY, i, 0, s1.sems[i]);
      WaitingMid(s1, i, 0);
      WaitingFields(s1, i);
      ReschedMade(Waiting(s1, i));
      FromMade(s, WaitCall(i), Waiting(s1, i), Resched(Waiting(s1, i)), {});
    } else {
      EntriesAtOnce(s, WaitCall(i), s1);
    }
  }

  lemma SleepEntries(s: Sys, c: Call)
    requires Inv(s) && CallOK(s, c) && (c.SleepCall? || c.RecvTimeCall?)
    ensures EntriesOK(s, c, Apply(s, c))
  {
    hide Shape, MadeReady, EntriesOK, MsgsBut, SemsBut, SleepBut, SchedOK, HomeOK, ReadyOK, Resched, PrioOK, OneCurr,
        Keys;
    InvSound(s);
    SizesOf(s);
    if c.SleepCall? && c.delay == 0 {
      ReschedMade(s);
      FromMade(s, c, s, Resched(s), {});
    } else if c.SleepCall? {
      SleepingMid(s, c.delay, Sleep, Outside);
      var u := Sleeping(s, c.delay, Sleep, Outside);
      ReschedMade(u);
      FromMade(s, c, u, Resched(u), {});
    } else if c.maxwait >= 0 && !s.procs[s.curr].hasmsg {
      SleepingMid(s, c.maxwait, RecTim, InRecvTime);
      var u := Sleeping(s, c.maxwait, RecTim, InRecvTime);
      ReschedMade(u);
      FromMade(s, c, u, Resched(u), {});
    } else {
      EntriesAtOnce(s, c, Apply(s, c));
    }
  }

  lemma TickEntries(s: Sys)
    requires Inv(s) && CallOK(s, Tick)
    ensures EntriesOK(s, Tick, Apply(s, Tick))
  {
    hide Inv, CallOK, Ticked, MadeReady, EntriesOK, TimeLeft, LooseBut, Sound;
    InvLoose(s);
    InvLoose(Ticked(s));
    SizesOf(s);
    TickedMade(s);
    var t := Ticked(s);
    forall p | 0 <= p < NPROC
      ensures p in Rose(s, t) <==> Asleep(s, p) && TimeLeft(s, p) <= Step1(s)
    {
      AsleepIsListed(s, p);
      AsleepIsListed(t, p);
      if Asleep(s, p) {
        ClockCounts(s, p);
      }
    }
    FromMade(s, Tick, s, t, Rose(s, t));
  }

  lemma ReceiveEntries(s: Sys, c: Call)
    requires Inv(s) && CallOK(s, c) && (c == ReceiveCall || c == ReceiveRest || c == RecvTimeRest || c == RecvClrCall)
    ensures EntriesOK(s, c, Apply(s, c))
  {
    hide Shape, MadeReady, EntriesOK, MsgsBut, SemsBut, SleepBut, SchedOK, HomeOK, ReadyOK, Resched, PrioOK, OneCurr;
    InvSound(s);
    SizesOf(s);
    if c == ReceiveCall && !s.procs[s.curr].hasmsg {
      var u := Became(s, s.procs[s.curr].(state := Recv), InReceive);
      BecameMid(s, s.procs[s.curr].(state := Recv), InReceive);
      ReschedMade(u);
      FromMade(s, c, u, Resched(u), {});
    } else {
      EntriesAtOnce(s, c, Apply(s, c));
    }
  }

  /** A message delivered to process q. */
  lemma SentMade(s: Sys, q: int, m: int)
    requires Inv(s) && !BadPid(s, q) && !s.procs[q].hasmsg
    ensures Sound(s) && var t := Sent(s, q, m);
            |t.procs| == |t.at| == NPROC && t.at == s.at && forall p :: 0 <= p < NPROC ==>
              Alike(if p == q then WithMessage(s.procs[p], m) else s.procs[p], t.procs[p])
  {
    hide Shape, MadeReady, Readied, MsgsBut, SemsBut, SleepBut, SchedOK, HomeOK, ReadyOK, PrioOK, OneCurr;
    SentInv(s, q, m);
    var s1 := SetProc(s, q, s.procs[q].(msg := m, hasmsg := true));
    if s.procs[q].state == Recv {
      ReadiedMade(s1, q);
      MadeOne(s1, Readied(s1, q), q);
    } else if s.procs[q].state == RecTim {
      ReadiedMade(Unslept(s1, q), q);
      MadeOne(Unslept(s1, q), Readied(Unslept(s1, q), q), q);
    }
  }

  lemma MadeOne(s: Sys, t: Sys, q: int)
    requires MadeReady(s, t, {q})
    ensures |s.procs| == |t.procs| == NPROC
    ensures forall p :: 0 <= p < NPROC ==> Alike(if p == q then s.procs[p].(state := Ready) else s.procs[p], t.procs[p])
  {
    hide Shape;
    forall p | 0 <= p < NPROC
      ensures Alike(if p == q then s.procs[p].(state := Ready) else s.procs[p], t.procs[p])
    {
      assert p in {q} <==> p == q;
    }
  }

  lemma SendEntries(s: Sys, c: Call, q: int, m: int)
    requires Inv(s) && CallOK(s, c) && c == SendCall(q, m)
    ensures EntriesOK(s, c, Apply(s, c))
  {
    hide Mid, Sent, SchedOK;
    InvSound(s);
    SizesOf(s);
    if BadPid(s, q) || s.procs[q].hasmsg {
      EntriesAtOnce(s, c, Apply(s, c));
    } else {
      SentMade(s, q, m);
    }
  }

  lemma KillCallEntries(s: Sys, q: int)
    requires Inv(s) && CallOK(s, KillCall(q))
    ensures EntriesOK(s, KillCall(q), Apply(s, KillCall(q)))
  {
    hide Mid, Sent, SchedOK;
    InvSound(s);
    SizesOf(s);
    if BadPid(s, q) || q == NULLPROC || BadPid(s, s.procs[q].parent) || s.procs[s.procs[q].parent].hasmsg {
      EntriesAtOnce(s, KillCall(q), Apply(s, KillCall(q)));
    } else {
      SentMade(s, s.procs[q].parent, q);
    }
  }

  lemma SuspendEntries(s: Sys, q: int)
    requires Inv(s) && CallOK(s, SuspendCall(q))
    ensures EntriesOK(s, SuspendCall(q), Apply(s, SuspendCall(q)))
  {
    hide Shape, MadeReady, EntriesOK, MsgsBut, SemsBut, SleepBut, SchedOK, HomeOK, ReadyOK, Resched, PrioOK, Drop;
    InvSound(s);
    SizesOf(s);
    var c := SuspendCall(q);
    if BadPid(s, q) || q == NULLPROC || s.procs[q].state !in RUNNABLE {
      EntriesAtOnce(s, c, s);
    } else if s.procs[q].state == Ready {
      UnreadyMid(s, q, Susp);
      EntriesAtOnce(s, c, Apply(s, c));
    } else {
      SuspendCurr(s, q);
      var u := Became(s, s.procs[s.curr].(state := Susp), Outside);
      BecameMid(s, s.procs[s.curr].(state := Susp), Outside);
      ReschedMade(u);
      FromMade(s, c, u, Resched(u), {});
    }
  }

  lemma ResumeEntries(s: Sys, q: int)
    requires Inv(s) && CallOK(s, ResumeCall(q))
    ensures EntriesOK(s, ResumeCall(q), Apply(s, ResumeCall(q)))
  {
    hide Shape, MadeReady, EntriesOK, MsgsBut, SemsBut, SleepBut, SchedOK, HomeOK, ReadyOK, Readied, PrioOK, OneCurr;
    InvSound(s);
    SizesOf(s);
    var c := ResumeCall(q);
    if BadPid(s, q) || s.procs[q].state != Susp {
      EntriesAtOnce(s, c, s);
    } else {
      ResumeMid(s, q);
      ReadiedMade(s, q);
      FromMade(s, c, s, Readied(s, q), {q});
    }
  }

  lemma CreateEntries(s: Sys, c: Call)
    requires Inv(s) && CallOK(s, c) && c.CreateCall?
    ensures EntriesOK(s, c, Apply(s, c))
  {
    hide Mid, SchedOK, FindPid;
    InvSound(s);
    SizesOf(s);
    EntriesAtOnce(s, c, Apply(s, c));
  }

  lemma KillEntries(s: Sys, q: int)
    requires Inv(s) && CallOK(s, KillRest(q))
    ensures EntriesOK(s, KillRest(q), Apply(s, KillRest(q)))
  {
    hide Shape, MadeReady, EntriesOK, MsgsBut, SemsBut, SleepBut, SchedOK, HomeOK, ReadyOK, Resched, PrioOK, OneCurr,
        Drop,
        Removed, Entry;
    InvSound(s);
    SizesOf(s);
    var c := KillRest(q);
    if s.procs[q].state == Curr {
      SuicideEntries(s, q);
    } else {
      RemovedEntry(s, q);
      KillEntry(s, q);
      EntriesAtOnce(s, c, Apply(s, c));
    }
  }

  lemma KillEntry(s: Sys, q: int)
    requires Inv(s) && CallOK(s, KillRest(q))
    ensures forall p :: 0 <= p < NPROC ==>
              Entry(s, KillRest(q), p) == if p == q then s.procs[p].(state := Free) else s.procs[p]
  {
    hide Mid, SchedOK;
  }

  lemma SuicideEntries(s: Sys, q: int)
    requires Inv(s) && CallOK(s, KillRest(q)) && s.procs[q].state == Curr
    ensures EntriesOK(s, KillRest(q), Apply(s, KillRest(q)))
  {
    hide Shape, MadeReady, EntriesOK, MsgsBut, SemsBut, SleepBut, SchedOK, HomeOK, ReadyOK, Resched, PrioOK, OneCurr;
    CurrIs(s, q);
    var u := Became(s, s.procs[s.curr].(state := Free), Outside);
    BecameMid(s, s.procs[s.curr].(state := Free), Outside);
    ReschedMade(u);
    FromMade(s, KillRest(q), u, Resched(u), {});
  }

  /** A process that is not running is taken from wherever it is, and is free afterwards. */
  lemma RemovedEntry(s: Sys, q: int)
    requires Inv(s) && 0 < q < NPROC && s.procs[q].state != Curr && (q == s.curr ==> s.ndefers == 0)
    ensures Removed(s, q).procs == s.procs[q := s.procs[q].(state := Free)]
    ensures |Removed(s, q).at| == |s.at| == NPROC
            && forall p :: 0 <= p < NPROC && p != q ==> Removed(s, q).at[p] == s.at[p]
  {
    hide Shape, MsgsBut, SemsBut, SleepBut, SchedOK, HomeOK, ReadyOK, PrioOK, OneCurr, Drop;
    match s.procs[q].state
    case Sleep => UnslumberMid(s, q);
    case RecTim => UnslumberMid(s, q);
    case Wait => UnwaitMid(s, q);
    case Ready => UnreadyMid(s, q, Free);
    case _ =>
  }
}
