// A timed receive with a delay of no ticks stops the clock for everybody else, once
// (system/recvtime.c, system/insertd.c, system/wakeup.c).

module ZeroWait {

  import opened Queues
  import opened Delta
  import opened Sched
  import opened Calls
  import opened Procs
  import opened Kernel
  import opened KernelRun
  import opened Semaphores
  import opened SleepLaws
  import opened ProcLaws

  /** With a sleeper x anywhere, a timed receive of no ticks that has to wait makes the next tick take
      nothing from x. */
  lemma NothingTaken(s: Sys, x: int)
    requires Inv(s) && CallOK(s, RecvTimeCall(0)) && !s.procs[s.curr].hasmsg && Asleep(s, x)
    ensures var t := Apply(s, RecvTimeCall(0));
            && LooseBut(s, EMPTY) && LooseBut(t, EMPTY) && LooseBut(Ticked(t), EMPTY)
            && Asleep(t, x) && TimeLeft(t, x) == TimeLeft(s, x)
            && (TimeLeft(s, x) > 0 ==> Asleep(Ticked(t), x) && TimeLeft(Ticked(t), x) == TimeLeft(s, x))
  {
    hide Apply, CallOK, LooseBut, Ticked, TimeLeft;
    var c := RecvTimeCall(0);
    var t := Apply(s, c);
    NoMessage(s, x);
    OnlyTheClockCounts(s, c, x);
    SleepsAsAsked(s, c);
    FirstHasNone(t, s.curr);
    ClockCounts(t, x);
  }

  lemma NoMessage(s: Sys, x: int)
    requires Inv(s)
    ensures !MessageFor(s, RecvTimeCall(0), x)
  {
  }

  /** If somebody has no ticks left, neither has the first. */
  lemma FirstHasNone(s: Sys, p: int)
    requires Inv(s) && Asleep(s, p) && (InvLoose(s); TimeLeft(s, p) == 0)
    ensures Sound(s) && Sleepers(s) != [] && 0 <= Sleepers(s)[0] < |s.lists.key| && s.lists.key[Sleepers(s)[0]] == 0
  {
    hide Remaining;
    InvLoose(s);
    SleepInv(s);
    AsleepIsListed(s, p);
    var l, key := Sleepers(s), s.lists.key;
    RemainingMonotone(l, key, 1, IndexOf(l, p) + 1);
    FirstSum(l, key);
  }

  lemma FirstSum(l: seq<int>, key: seq<int>)
    requires Keyed(l, key) && l != []
    ensures Remaining(l, key, 1) == key[l[0]]
  {
    assert Remaining(l, key, 0) == 0;
  }

  // ---- a run that gets there ------------------------------------------------------------------------

  /** Process p is alive outside receive and recvtime, without a message, in one of these states. */
  predicate Lives(s: Sys, p: int, prio: int, states: set<PState>)
  {
    0 <= p < |s.procs| == |s.at| && s.procs[p].state in states && s.procs[p].prio == prio && !s.procs[p].hasmsg
        && s.at[p] == Outside
  }


  /** No deferral, and no processes from n on. */
  ghost predicate Stage(s: Sys, n: nat)
  {
    Inv(s) && s.ndefers == 0 && s.nextpid == n < NPROC && forall p :: n <= p < |s.procs| ==> s.procs[p].state == Free
  }

  /** The one with the highest priority of all that may run is running. */
  lemma TheHighestRuns(s: Sys, n: nat, p: int)
    requires Stage(s, n) && 0 <= p < n && p < |s.procs| && s.procs[p].state in RUNNABLE
    requires forall x ::
             0 <= x < n && x < |s.procs| && x != p && s.procs[x].state in RUNNABLE ==> s.procs[x].prio < s.procs[p].prio
    ensures s.curr == p
  {
    hide Shape, SemsBut, SleepBut, MsgsBut;
  }

  lemma CreateStep(s: Sys, n: nat, prio: int)
    requires Stage(s, n) && CallOK(s, CreateCall(true, prio)) && n + 1 < NPROC && 1 <= prio
    ensures var t := Apply(s, CreateCall(true, prio));
            Stage(t, n + 1) && Lives(t, n, prio, {Susp}) && t.procs == s.procs[n := t.procs[n]]
                && t.at == s.at[n := t.at[n]] && t.curr == s.curr
  {
    hide Mid, SchedOK, FindPid, Sound;
    InvSound(s);
    StageSizes(s, n);
    NextPid(s.procs, n, NPROC);
    var t := Apply(s, CreateCall(true, prio));
    assert t == Created(s, prio);
    assert t.procs == s.procs[n :=
           s.procs[n].(state := Susp, prio := prio, sem := -1, parent := s.curr, hasmsg := false)];
  }

  lemma StageSizes(s: Sys, n: nat)
    requires Stage(s, n)
    ensures |s.procs| == NPROC && |s.at| == NPROC && 0 <= s.curr < NPROC
  {
    hide Shape, SemsBut, SleepBut, MsgsBut, SchedOK;
  }

  lemma NextPid(procs: seq<Proc>, n: nat, tries: nat)
    requires |procs| == NPROC && n < NPROC && procs[n].state == Free && tries > 0
    ensures FindPid(procs, n, tries) == (n, n + 1)
  {
  }

  lemma ResumeStep(s: Sys, n: nat, p: int)
    requires Stage(s, n) && CallOK(s, ResumeCall(p)) && 0 <= p < n && p < |s.procs| && s.procs[p].state == Susp
    ensures var t := Apply(s, ResumeCall(p));
            && Stage(t, n) && t.at == s.at && |t.procs| == |s.procs| && t.procs[p].state in RUNNABLE
               && t.procs[p] == s.procs[p].(state := t.procs[p].state)
            && Others(s, t, p)
  {
    hide SchedOK, Readied, LooseBut, SemsBut, SleepBut, MsgsBut;
    InvSound(s);
    ResumeMid(s, p);
    var t := Apply(s, ResumeCall(p));
    assert t == Readied(s, p);
    InvSound(t);
    assert OnlyState(s.procs[p], t.procs[p], true);
    forall x | 0 <= x < NPROC && x != p
      ensures OnlyState(s.procs[x], t.procs[x], false)
    {
    }
  }

  /** The others change at most between ready and current. */
  ghost predicate Others(s: Sys, t: Sys, p: int)
  {
    && |t.procs| == |s.procs|
    && forall x :: 0 <= x < |s.procs| && x != p ==>
         t.procs[x] == s.procs[x].(state := t.procs[x].state)
             && (t.procs[x].state == s.procs[x].state || (s.procs[x].state in RUNNABLE && t.procs[x].state in RUNNABLE))
  }

  lemma SleepStep(s: Sys, n: nat, d: int)
    requires Stage(s, n) && CallOK(s, SleepCall(d)) && d > 0
    ensures var t := Apply(s, SleepCall(d));
            && Stage(t, n) && t.at == s.at && Others(s, t, s.curr)
            && Asleep(t, s.curr) && LooseBut(t, EMPTY) && TimeLeft(t, s.curr) == d
  {
    hide Mid, SchedOK, Resched, TimeLeft, Shape;
    SleepsAsAsked(s, SleepCall(d));
    InvLoose(s);
    SleepingMid(s, d, Sleep, Outside);
    var u := Sleeping(s, d, Sleep, Outside);
    Sounds(u, EMPTY, EMPTY, 0);
    ReschedMid(u, EMPTY, 0);
    var t := Resched(u);
    forall x | 0 <= x < NPROC
      ensures OnlyState(u.procs[x], t.procs[x], false)
    {
    }
  }

  /** Process 1 starts, then process 2. */
  lemma BothStart(s: Sys, calls: seq<Call>) returns (t: Sys)
    requires Initial(s) && calls == [CreateCall(true, 10), ResumeCall(1), CreateCall(true, 20), ResumeCall(2)]
    ensures Inv(s) && RunOK(s, calls) && t == Run(s, calls)
    ensures Stage(t, 3) && t.curr == 2 && t.procs[0].state in RUNNABLE && t.procs[0].prio == 0
            && Lives(t, 1, 10, RUNNABLE) && Lives(t, 2, 20, RUNNABLE)
  {
    hide Inv, Apply, Run, RunOK;
    InitialInv(s);
    CreateStep(s, 1, 10);
    var s1 := Apply(s, calls[0]);
    ResumeStep(s1, 2, 1);
    var s2 := Apply(s1, calls[1]);
    TheHighestRuns(s2, 2, 1);
    CreateStep(s2, 2, 20);
    var s3 := Apply(s2, calls[2]);
    ResumeStep(s3, 3, 2);
    t := Apply(s3, calls[3]);
    TheHighestRuns(t, 3, 2);
    RunFour(s, calls);
  }

  lemma RunFour(s: Sys, calls: seq<Call>)
    requires |calls| == 4 && Inv(s) && CallOK(s, calls[0])
    requires var s1 := Apply(s, calls[0]);
             CallOK(s1, calls[1]) &&
             var s2 := Apply(s1, calls[1]);
             CallOK(s2, calls[2]) && CallOK(Apply(s2, calls[2]), calls[3])
    ensures RunOK(s, calls) && Run(s, calls) == Apply(Apply(Apply(Apply(s, calls[0]), calls[1]), calls[2]), calls[3])
  {
    hide Inv, Apply, Run, RunOK, CallOK;
    RunTwo(s, calls[..2]);
    RunTwo(Apply(Apply(s, calls[0]), calls[1]), calls[2..]);
    RunJoin(s, calls[..2], calls[2..]);
    assert calls[..2] + calls[2..] == calls;
  }

  lemma RunTwo(s: Sys, calls: seq<Call>)
    requires |calls| == 2 && Inv(s) && CallOK(s, calls[0]) && CallOK(Apply(s, calls[0]), calls[1])
    ensures RunOK(s, calls) && Run(s, calls) == Apply(Apply(s, calls[0]), calls[1])
  {
    hide Inv, Apply, CallOK, Run, RunOK;
    RunStep(s, calls);
    RunStep(Apply(s, calls[0]), calls[1..]);
    NoCalls(Apply(Apply(s, calls[0]), calls[1]));
    assert calls[1..][1..] == [];
  }

  lemma RunStep(s: Sys, calls: seq<Call>)
    requires Inv(s) && calls != [] && CallOK(s, calls[0])
    ensures RunOK(s, calls) <==> RunOK(Apply(s, calls[0]), calls[1..])
    ensures RunOK(s, calls) ==> Run(s, calls) == Run(Apply(s, calls[0]), calls[1..])
  {
  }

  lemma NoCalls(s: Sys)
    requires Inv(s)
    ensures RunOK(s, []) && Run(s, []) == s
  {
  }

  lemma {:induction false} RunJoin(s: Sys, c: seq<Call>, d: seq<Call>)
    requires Inv(s) && RunOK(s, c) && RunOK(Run(s, c), d)
    ensures RunOK(s, c + d) && Run(s, c + d) == Run(Run(s, c), d)
    decreases |c|
  {
    hide Inv, Apply, CallOK;
    if c == [] {
      assert c + d == d;
    } else {
      assert (c + d)[1..] == c[1..] + d;
      RunJoin(Apply(s, c[0]), c[1..], d);
    }
  }

  /** From start-up: process 1 creates and starts process 2, which sleeps for five ticks; then 1 waits
      for a message for no ticks.  The next tick leaves process 2 with five. */
  lemma FiveTicksStayFive(s: Sys)
    requires Initial(s)
    ensures var calls := [CreateCall(true, 10), ResumeCall(1), CreateCall(true, 20), ResumeCall(2), SleepCall(5),
            RecvTimeCall(0)];
            && Inv(s) && RunOK(s, calls)
            && var t := Run(s, calls);
               && LooseBut(t, EMPTY) && Asleep(t, 2) && TimeLeft(t, 2) == 5
               && LooseBut(Ticked(t), EMPTY) && Asleep(Ticked(t), 2) && TimeLeft(Ticked(t), 2) == 5
  {
    hide Inv, Apply, Run, RunOK, LooseBut, TimeLeft, Ticked, Initial;
    var c, d := [CreateCall(true, 10), ResumeCall(1), CreateCall(true, 20), ResumeCall(2)],
        [SleepCall(5), RecvTimeCall(0)];
    var u := BothStart(s, c);
    SleepStep(u, 3, 5);
    var v := Apply(u, d[0]);
    TheHighestRuns(v, 3, 1);
    NothingTaken(v, 2);
    RunTwo(u, d);
    RunJoin(s, c, d);
    assert c + d == [CreateCall(true, 10), ResumeCall(1), CreateCall(true, 20), ResumeCall(2), SleepCall(5),
           RecvTimeCall(0)];
  }

  // ---- without such a call every tick counts ------------------------------------------------------------

  /** Every sleeper has at least one tick to go. */
  ghost predicate HaveTime(s: Sys)
    requires LooseBut(s, EMPTY)
  {
    forall x :: Asleep(s, x) ==> TimeLeft(s, x) >= 1
  }

  /** Who is asleep after a call and was not before has just put itself to sleep. */
  lemma NewSleeper(s: Sys, c: Call, x: int)
    requires Inv(s) && CallOK(s, c) && 0 <= x < NPROC && !Asleep(s, x) && Asleep(Apply(s, c), x)
    ensures x == s.curr
    ensures (c.SleepCall? && c.delay > 0) || (c.RecvTimeCall? && c.maxwait >= 0 && !s.procs[s.curr].hasmsg)
  {
    hide Inv, LooseBut, Apply, Kept, WentToSleep, LeftSleep, Removed, CallOK, SleepSame, Expired, Ticked, KeysOn;
    InvLoose(s);
    var t := Apply(s, c);
    InvLoose(t);
    AsleepIsListed(s, x);
    AsleepIsListed(t, x);
    if OnSemaphore(c) {
      SemaphoreSleep(s, c);
      SameSleepers(s, t);
    } else if !MovesSleeper(s, c) {
      SleepUntouched(s, c);
      SameSleepers(s, t);
    } else {
      SleepersMoved(s, c, x);
    }
  }

  lemma SameSleepers(s: Sys, t: Sys)
    requires Sound(s) && Sound(t) && t.sleepq == s.sleepq && SleepSame(s, t)
    ensures Sleepers(t) == Sleepers(s)
  {
  }

  lemma SleepersMoved(s: Sys, c: Call, x: int)
    requires Inv(s) && CallOK(s, c) && !OnSemaphore(c) && MovesSleeper(s, c)
    ensures Sound(s) && Sound(Apply(s, c))
    ensures x in Sleepers(Apply(s, c)) && x !in Sleepers(s) ==> x == s.curr && (c.SleepCall? || c.RecvTimeCall?)
  {
    hide LooseBut, MsgsBut, SemsBut, SleepBut, SchedOK, Sent, Unslumbered, Sleeping, Resched, KeysOn, Ticked, Expired;
    InvLoose(s);
    InvLoose(Apply(s, c));
    match c
    case SleepCall(d) =>
      SleepingGoes(s, d, Sleep, Outside);
      Joins(s, Apply(s, c), s.curr, d, x);
    case RecvTimeCall(d) =>
      SleepingGoes(s, d, RecTim, InRecvTime);
      Joins(s, Apply(s, c), s.curr, d, x);
    case SendCall(p, m) =>
      RecTimHasNone(s, p);
      SentLeaves(s, p, m);
      Leaves(s, Apply(s, c), p, x);
    case KillCall(p) =>
      RecTimHasNone(s, s.procs[p].parent);
      SentLeaves(s, s.procs[p].parent, p);
      Leaves(s, Apply(s, c), s.procs[p].parent, x);
    case KillRest(p) =>
      KilledLeaves(s, p);
      Leaves(s, Apply(s, c), p, x);
    case Tick =>
      if Sleepers(s) == [] {
        IdleTick(s);
      } else {
        TickQueue(s);
      }
  }

  lemma IdleTick(s: Sys)
    requires Inv(s) && (InvLoose(s); Sleepers(s) == [])
    ensures Sound(Ticked(s)) && Sleepers(Ticked(s)) == []
  {
    hide Mid, Resched, SchedOK;
    InvLoose(s);
    ReschedSleep(s);
  }

  lemma Joins(s: Sys, t: Sys, p: int, d: int, x: int)
    requires WentToSleep(s, t, p, d)
    ensures Sound(s) && Sound(t) && (x in Sleepers(t) && x !in Sleepers(s) ==> x == p)
  {
    hide LooseBut, SleepBut, KeysOn, Keys;
    LooseSound(s, EMPTY);
    LooseSound(t, EMPTY);
  }

  lemma Leaves(s: Sys, t: Sys, p: int, x: int)
    requires LeftSleep(s, t, p)
    ensures Sound(s) && Sound(t) && (x in Sleepers(t) ==> x in Sleepers(s))
  {
    hide LooseBut, SleepBut, KeysOn, PassOn;
    LooseSound(s, EMPTY);
    LooseSound(t, EMPTY);
  }

  lemma HaveTimeKept(s: Sys, c: Call)
    requires Inv(s) && CallOK(s, c) && c != RecvTimeCall(0) && (InvLoose(s); HaveTime(s))
    ensures LooseBut(Apply(s, c), EMPTY) && HaveTime(Apply(s, c))
  {
    hide Inv, LooseBut, Apply, CallOK, TimeLeft, Ticked;
    InvLoose(s);
    var t := Apply(s, c);
    InvLoose(t);
    forall x | Asleep(t, x)
      ensures TimeLeft(t, x) >= 1
    {
      if !Asleep(s, x) {
        CurrAwake(t, x);
        NewSleeper(s, c, x);
        SleepsAsAsked(s, c);
      } else if c == Tick {
        TickIs(s);
        ClockCounts(s, x);
      } else {
        OnlyTheClockCounts(s, c, x);
      }
    }
  }

  lemma TickIs(s: Sys)
    requires Inv(s)
    ensures CallOK(s, Tick) && Apply(s, Tick) == Ticked(s)
  {
  }

  /** A tick takes one from everybody as long as all have time. */
  lemma TickTakesOne(s: Sys, x: int)
    requires Inv(s) && (InvLoose(s); HaveTime(s)) && Asleep(s, x)
    ensures LooseBut(s, EMPTY) && LooseBut(Ticked(s), EMPTY)
    ensures Asleep(Ticked(s), x) <==> TimeLeft(s, x) > 1
    ensures Asleep(Ticked(s), x) ==> TimeLeft(Ticked(s), x) == TimeLeft(s, x) - 1
  {
    hide Inv, TimeLeft, Ticked, LooseBut;
    InvLoose(s);
    ClockCounts(s, x);
    FirstHasTime(s);
  }

  lemma FirstHasTime(s: Sys)
    requires Inv(s) && (InvLoose(s); HaveTime(s)) && (InvLoose(s); Sleepers(s) != [])
    ensures Sound(s) && 0 <= Sleepers(s)[0] < |s.lists.key| && s.lists.key[Sleepers(s)[0]] >= 1
  {
    hide Remaining, LooseBut, SchedOK, SemsBut, MsgsBut;
    InvLoose(s);
    SleepInv(s);
    var l := Sleepers(s);
    HomeOfIndex(s.lists, s.sleepq, 0);
    AsleepIsListed(s, l[0]);
    IndexUnique(l, l[0], 0);
    FirstSum(l, s.lists.key);
  }

  /** In every run from start-up without a timed receive of no ticks, each tick takes exactly one
      from every sleeper and wakes exactly those who then have none left. */
  lemma {:induction false} EveryTickCounts(s: Sys, calls: seq<Call>)
    requires Inv(s) && RunOK(s, calls) && RecvTimeCall(0) !in calls && (InvLoose(s); HaveTime(s))
    ensures LooseBut(Run(s, calls), EMPTY) && HaveTime(Run(s, calls))
    ensures var t := Run(s, calls); LooseBut(Ticked(t), EMPTY)
    ensures var t := Run(s, calls);
            forall x :: Asleep(t, x) ==>
              (Asleep(Ticked(t), x) <==> TimeLeft(t, x) > 1)
                  && (Asleep(Ticked(t), x) ==> TimeLeft(Ticked(t), x) == TimeLeft(t, x) - 1)
    decreases |calls|
  {
    hide Inv, Apply, CallOK, LooseBut, TimeLeft, Ticked, HaveTime;
    InvLoose(s);
    if calls == [] {
      InvLoose(Ticked(s));
      forall x | Asleep(s, x)
        ensures (Asleep(Ticked(s), x) <==> TimeLeft(s, x) > 1)
                && (Asleep(Ticked(s), x) ==> TimeLeft(Ticked(s), x) == TimeLeft(s, x) - 1)
      {
        TickTakesOne(s, x);
      }
    } else {
      HaveTimeKept(s, calls[0]);
      EveryTickCounts(Apply(s, calls[0]), calls[1..]);
    }
  }

  lemma NobodySleepsAtFirst(s: Sys)
    requires Initial(s)
    ensures Inv(s) && LooseBut(s, EMPTY) && HaveTime(s)
  {
    hide Inv, TimeLeft;
    InitialInv(s);
    InvLoose(s);
  }
}
