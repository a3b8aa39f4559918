// Laws of the sleep queue: the time a sleeper has left changes with the clock and with nothing
// else, and the clock wakes exactly those whose time is up (system/insertd.c, unsleep.c,
// wakeup.c, sleep.c, recvtime.c).

module SleepLaws {

  import opened Common
  import opened Queues
  import opened Delta
  import opened Sched
  import opened Calls
  import opened Procs
  import opened KernelRun
  import opened Semaphores

  predicate Asleep(s: Sys, p: int)
  {
    0 <= p < |s.procs| && s.procs[p].state in {Sleep, RecTim}
  }

  ghost function Sleepers(s: Sys): seq<int>
    requires Sound(s)
  {
    s.lists.on[s.sleepq]
  }

  /** The ticks that sleeper p has to go: the sum of the keys up to its own. */
  ghost function TimeLeft(s: Sys, p: int): int
    requires LooseBut(s, EMPTY) && Asleep(s, p)
  {
    AsleepIsListed(s, p);
    Left(Sleepers(s), s.lists.key, IndexOf(Sleepers(s), p))
  }

  lemma AsleepIsListed(s: Sys, p: int)
    requires LooseBut(s, EMPTY) && 0 <= p < NPROC
    ensures Asleep(s, p) <==> p in Sleepers(s)
    ensures Asleep(s, p) ==> s.lists.home[p] == s.sleepq
    ensures Keyed(Sleepers(s), s.lists.key) && NoDup(Sleepers(s))
  {
    InRange(s, s.sleepq);
    ListNoDup(s.lists, s.sleepq);
    HeadIds(s);
    assert HomeOK(s, p);
    if Asleep(s, p) {
      HomeHolds(s.lists, p);
    }
    if p in Sleepers(s) {
      OnHome(s.lists, s.sleepq, p);
    }
  }

  lemma IndexUnique(l: seq<int>, p: int, i: int)
    requires NoDup(l) && 0 <= i < |l| && l[i] == p
    ensures IndexOf(l, p) == i
  {
  }

  /** The same list with the same keys: the same times. */
  lemma SameTimes(s: Sys, t: Sys, p: int)
    requires LooseBut(s, EMPTY) && LooseBut(t, EMPTY) && t.sleepq == s.sleepq && SleepSame(s, t) && Asleep(s, p)
    ensures Asleep(t, p) && TimeLeft(t, p) == TimeLeft(s, p)
  {
    hide LooseBut;
    LooseSound(s, EMPTY);
    LooseSound(t, EMPTY);
    SizesOf(s);
    AsleepIsListed(s, p);
    AsleepIsListed(t, p);
    var l := Sleepers(s);
    forall i | 0 <= i < |l|
      ensures t.lists.key[l[i]] == s.lists.key[l[i]]
    {
      HomeOfIndex(s.lists, s.sleepq, i);
    }
    RemainingSame(l, s.lists.key, l, t.lists.key, IndexOf(l, p) + 1);
  }

  lemma SizesOf(s: Sys)
    requires Sound(s)
    ensures |s.procs| == NPROC && |s.at| == NPROC && |s.lists.key| == NPROC && |s.lists.home| == NPROC
  {
  }

  // ---- a process goes to sleep -------------------------------------------------------------------

  /** Process p has been put on the delta list of s with delay d, giving that of t. */
  ghost predicate WentToSleep(s: Sys, t: Sys, p: int, d: int)
  {
    && LooseBut(s, EMPTY) && LooseBut(t, EMPTY) && SleepBut(s, 0) && t.sleepq == s.sleepq && 0 <= d <= MAXKEY
    && 0 <= p < NPROC && p !in Sleepers(s) && Keyed(Sleepers(s), s.lists.key)
    && var (i, k) := DeltaPos(Sleepers(s), s.lists.key, d, 0);
       Sleepers(t) == Put(Sleepers(s), i, p)
           && KeysOn(Sleepers(t), t.lists.key, Keys(Sleepers(s), s.lists.key, i, p, k))
  }

  /** The keys agree on the processes of list l. */
  ghost predicate KeysOn(l: seq<int>, key: seq<int>, key': seq<int>)
  {
    |key| == |key'| && forall j :: 0 <= j < |l| ==> 0 <= l[j] < |key| && key[l[j]] == key'[l[j]]
  }

  /** insertd: the newcomer has d to go, the others what they had. */
  lemma InsertTime(s: Sys, t: Sys, p: int, d: int, x: int)
    requires WentToSleep(s, t, p, d) && 0 <= x < NPROC && (Asleep(s, x) || x == p)
    ensures Asleep(t, x) && TimeLeft(t, x) == if x == p then d else TimeLeft(s, x)
  {
    hide LooseBut, SleepBut, Keys, Put, DeltaPos, Remaining, NoDup, Sound, DelaysOK;
    LooseSound(s, EMPTY);
    LooseSound(t, EMPTY);
    SizesOf(s);
    SizesOf(t);
    SleepParts(s);
    var l, key := Sleepers(s), s.lists.key;
    var (i, k) := DeltaPos(l, key, d, 0);
    var l', key' := Put(l, i, p), Keys(l, key, i, p, k);
    AsleepIsListed(s, x);
    PutIsIn(l, i, p, x);
    AsleepIsListed(t, x);
    var n := if x == p then i else if IndexOf(l, x) < i then IndexOf(l, x) else IndexOf(l, x) + 1;
    PutAtIndex(l, i, p, x, n);
    PutNoDup(l, i, p);
    IndexUnique(l', x, n);
    InsertRemaining(l, key, p, d, n + 1);
    RemainingOn(l', key', t.lists.key, n + 1);
  }

  lemma PutAtIndex(l: seq<int>, i: int, p: int, x: int, n: int)
    requires 0 <= i <= |l| && p !in l && (x == p || x in l)
    requires n == if x == p then i else if IndexOf(l, x) < i then IndexOf(l, x) else IndexOf(l, x) + 1
    ensures 0 <= n < |Put(l, i, p)| && Put(l, i, p)[n] == x
  {
  }

  lemma SleepParts(s: Sys)
    requires Sound(s) && SleepBut(s, 0)
    ensures DelaysOK(Sleepers(s), s.lists.key, 0) && NoDup(Sleepers(s)) && Keyed(Sleepers(s), s.lists.key)
  {
    ListNoDup(s.lists, s.sleepq);
  }

  // ---- a sleeper is woken early or killed ------------------------------------------------------

  ghost predicate LeftSleep(s: Sys, t: Sys, p: int)
  {
    && LooseBut(s, EMPTY) && LooseBut(t, EMPTY) && t.sleepq == s.sleepq && p in Sleepers(s)
       && Keyed(Sleepers(s), s.lists.key)
    && var i := IndexOf(Sleepers(s), p);
       Sleepers(t) == Drop(Sleepers(s), i) && KeysOn(Sleepers(t), t.lists.key, PassOn(Sleepers(s), s.lists.key, i))
  }

  /** unsleep: everybody else has what it had. */
  lemma RemoveTime(s: Sys, t: Sys, p: int, x: int)
    requires LeftSleep(s, t, p) && Asleep(s, x)
    ensures if x == p then !Asleep(t, x) else Asleep(t, x) && TimeLeft(t, x) == TimeLeft(s, x)
  {
    hide LooseBut, Drop, Remaining, NoDup, Sound, PassOn;
    LooseSound(s, EMPTY);
    LooseSound(t, EMPTY);
    SizesOf(s);
    SizesOf(t);
    AsleepIsListed(s, x);
    AsleepIsListed(t, x);
    var l, key := Sleepers(s), s.lists.key;
    var i := IndexOf(l, p);
    DropIsIn(l, i, x);
    DropNode(0, l, i, 0);
    if x != p {
      var n := if IndexOf(l, x) < i then IndexOf(l, x) else IndexOf(l, x) - 1;
      DropAtIndex(l, i, x, n);
      DropNoDup(l, i);
      IndexUnique(Drop(l, i), x, n);
      RemoveRemaining(l, key, i, n + 1);
      RemainingOn(Drop(l, i), PassOn(l, key, i), t.lists.key, n + 1);
    }
  }

  lemma DropAtIndex(l: seq<int>, i: int, x: int, n: int)
    requires 0 <= i < |l| && x in l && l[i] != x
    requires n == if IndexOf(l, x) < i then IndexOf(l, x) else IndexOf(l, x) - 1
    ensures 0 <= n < |Drop(l, i)| && Drop(l, i)[n] == x
  {
  }

  // ---- every call but the clock --------------------------------------------------------------------

  lemma SleepingGoes(s: Sys, d: int, st: PState, pl: Place)
    requires Inv(s) && s.curr != NULLPROC && 0 <= d <= MAXKEY && s.ndefers == 0
    requires (st == Sleep && pl == Outside) || (st == RecTim && pl == InRecvTime && !s.procs[s.curr].hasmsg)
    ensures var u := Sleeping(s, d, st, pl); LooseBut(u, EMPTY) && CanRun(u) && WentToSleep(s, Resched(u), s.curr, d)
  {
    hide Shape, MsgsBut, SemsBut, HomeOK, ReadyOK, PrioOK, OneCurr, Resched, Keys, SchedOK, Kept;
    var u := Sleeping(s, d, st, pl);
    SleepingMid(s, d, st, pl);
    ReschedOK(u);
    ReschedKept(u);
    KeptSleep(u, Resched(u), EMPTY, EMPTY);
    CurrNotAsleep(s);
    KeptKeys(u, Resched(u));
  }

  lemma CurrNotAsleep(s: Sys)
    requires Inv(s)
    ensures |s.lists.key| == NPROC && s.curr !in Sleepers(s) && Keyed(Sleepers(s), s.lists.key)
  {
    AsleepIsListed(s, s.curr);
  }

  lemma KeptSleep(s: Sys, t: Sys, x: int, e: int)
    requires Kept(s, t, x, e, true)
    ensures Sound(s) && Sound(t) && t.sleepq == s.sleepq && SleepSame(s, t)
  {
  }

  lemma KeptKeys(s: Sys, t: Sys)
    requires Sound(s) && Sound(t) && t.sleepq == s.sleepq && SleepSame(s, t)
    ensures Sleepers(t) == Sleepers(s) && KeysOn(Sleepers(t), t.lists.key, s.lists.key)
  {
    SizesOf(s);
    SizesOf(t);
    forall j | 0 <= j < |Sleepers(s)|
      ensures t.lists.key[Sleepers(s)[j]] == s.lists.key[Sleepers(s)[j]] && 0 <= Sleepers(s)[j] < NPROC
    {
      HomeOfIndex(s.lists, s.sleepq, j);
    }
  }

  lemma UnsleptLeaves(s: Sys, u: Sys, t: Sys, p: int)
    requires LooseBut(s, EMPTY) && LooseBut(t, EMPTY) && Asleep(s, p) && s.lists.home[p] == s.sleepq
             && s.sleepq != EMPTY
    requires Sound(u) && u.sleepq == s.sleepq && t.sleepq == s.sleepq && u.lists == Unslept(s, p).lists
             && SleepSame(u, t)
    ensures LeftSleep(s, t, p)
  {
    hide LooseBut, Shape;
    LooseSound(s, EMPTY);
    LooseSound(t, EMPTY);
    SizesOf(s);
    AsleepIsListed(s, p);
    KeptKeys(u, t);
  }

  lemma SentLeaves(s: Sys, p: int, msg: int)
    requires Inv(s) && !BadPid(s, p) && !s.procs[p].hasmsg && s.procs[p].state == RecTim
    ensures LeftSleep(s, Sent(s, p, msg), p)
  {
    hide Shape, MsgsBut, SemsBut, SleepBut, HomeOK, ReadyOK, PrioOK, OneCurr, SchedOK, Kept, Readied, LeftSleep;
    SentInv(s, p, msg);
    SleeperHome(s, p);
    var s1 := SetProc(s, p, s.procs[p].(msg := msg, hasmsg := true));
    var u := Unslept(s1, p);
    ReadiedKept(u, p);
    KeptSleep(u, Readied(u, p), EMPTY, EMPTY);
    UnsleptLeaves(s, u, Sent(s, p, msg), p);
  }

  lemma KilledLeaves(s: Sys, p: int)
    requires Inv(s) && 0 < p < NPROC && Asleep(s, p)
    ensures LeftSleep(s, Unslumbered(s, p), p)
  {
    hide Shape, MsgsBut, SemsBut, SleepBut, HomeOK, ReadyOK, PrioOK, OneCurr, SchedOK, LeftSleep;
    UnslumberMid(s, p);
    var t := Unslumbered(s, p);
    UnsleptLeaves(s, t, t, p);
  }

  /** A call on semaphores leaves the sleep queue alone. */
  lemma SemaphoreSleep(s: Sys, c: Call)
    requires Inv(s) && CallOK(s, c) && OnSemaphore(c)
    ensures var t := Apply(s, c); Sound(s) && Sound(t) && t.sleepq == s.sleepq && SleepSame(s, t)
  {
    hide Inv, Sound, Waited, Signal1, SignalledN, ResetTo, Deleted, SemCreated, Kept;
    InvSound(s);
    InvSound(Apply(s, c));
    SameKept(s, s, EMPTY, true);
    KeptSleep(s, s, EMPTY, EMPTY);
    if c.SemCreateCall? {
      CreatedSleep(s, c);
    } else if SemInUse(s, c.sem) && Apply(s, c) != s {
      match c {
        case WaitCall(j) => WaitedQueue(s, j);
        case SignalCall(j) =>
          InvParts(s);
          Signal1Queue(s, j);
        case SignalNCall(j, n) => SignalledNQueue(s, j, n);
        case SemResetCall(j, n) => ResetKept(s, j, n);
        case SemDeleteCall(j) => DeletedKept(s, j);
      }
      KeptSleep(s, Apply(s, c), c.sem, EMPTY);
    }
  }

  lemma CreatedSleep(s: Sys, c: Call)
    requires Inv(s) && c.SemCreateCall? && CallOK(s, c)
    ensures var t := Apply(s, c); Sound(s) && Sound(t) && t.sleepq == s.sleepq && SleepSame(s, t)
  {
    hide Shape, MsgsBut, SemsBut, SleepBut, SchedOK, FindSem, LooseBut;
    InvSound(s);
    InvSound(Apply(s, c));
  }

  /** Whatever is called, a process that stays asleep has as long to go as before, one that goes
      to sleep has the delay it asked for, and only a message or a kill ends a sleep. */
  lemma OnlyTheClockCounts(s: Sys, c: Call, x: int)
    requires Inv(s) && CallOK(s, c) && !c.Tick? && Asleep(s, x)
    ensures LooseBut(s, EMPTY) && LooseBut(Apply(s, c), EMPTY)
    ensures Asleep(Apply(s, c), x) ==> TimeLeft(Apply(s, c), x) == TimeLeft(s, x)
    ensures !Asleep(Apply(s, c), x) ==> c == KillRest(x) || MessageFor(s, c, x)
  {
    hide Inv, LooseBut, Apply, Kept, WentToSleep, LeftSleep, Removed;
    InvLoose(s);
    var t := Apply(s, c);
    InvLoose(t);
    if OnSemaphore(c) {
      SemaphoreSleep(s, c);
      SameTimes(s, t, x);
    } else if !MovesSleeper(s, c) {
      SleepUntouched(s, c);
      SameTimes(s, t, x);
    } else {
      SleeperMoved(s, c, x);
    }
  }

  lemma InvLoose(s: Sys)
    requires Inv(s)
    ensures LooseBut(s, EMPTY) && Sound(s) && Core(s)
  {
  }

  lemma SleepUntouched(s: Sys, c: Call)
    requires Inv(s) && CallOK(s, c) && !OnSemaphore(c) && !MovesSleeper(s, c)
    ensures var t := Apply(s, c); Sound(s) && Sound(t) && t.sleepq == s.sleepq && SleepSame(s, t)
  {
    hide Inv, Apply, Kept, Removed;
    InvLoose(s);
    if c.KillRest? && s.procs[c.pid].state == Wait {
      KillSleep(s, c);
    } else {
      OtherCallsKept(s, c);
      KeptSleep(s, Apply(s, c), EMPTY, if c.KillRest? then c.pid else EMPTY);
    }
  }

  lemma KillSleep(s: Sys, c: Call)
    requires Inv(s) && CallOK(s, c) && c.KillRest? && s.procs[c.pid].state == Wait
    ensures var t := Apply(s, c); Sound(s) && Sound(t) && t.sleepq == s.sleepq && SleepSame(s, t)
  {
    hide Inv, Kept, Unwaited;
    InvLoose(s);
    UnwaitedQueue(s, c.pid);
    KeptSleep(s, Unwaited(s, c.pid), s.procs[c.pid].sem, c.pid);
  }

  /** Call c delivers a message to process x: a send, or the notice of a killed child. */
  ghost predicate MessageFor(s: Sys, c: Call, x: int)
  {
    (c.SendCall? && c.pid == x) || (c.KillCall? && 0 <= c.pid < |s.procs| && s.procs[c.pid].parent == x)
  }

  lemma SleeperMoved(s: Sys, c: Call, x: int)
    requires Inv(s) && CallOK(s, c) && !c.Tick? && Asleep(s, x) && !OnSemaphore(c) && MovesSleeper(s, c)
    ensures LooseBut(s, EMPTY) && LooseBut(Apply(s, c), EMPTY)
    ensures Asleep(Apply(s, c), x) ==> TimeLeft(Apply(s, c), x) == TimeLeft(s, x)
    ensures !Asleep(Apply(s, c), x) ==> c == KillRest(x) || MessageFor(s, c, x)
  {
    hide LooseBut, MsgsBut, SemsBut, SleepBut, SchedOK, WentToSleep, LeftSleep, Sent, Unslumbered, Sleeping, Resched;
    InvLoose(s);
    InvLoose(Apply(s, c));
    match c
    case SleepCall(d) =>
      SleepingGoes(s, d, Sleep, Outside);
      CurrAwake(s, x);
      InsertTime(s, Apply(s, c), s.curr, d, x);
    case RecvTimeCall(d) =>
      SleepingGoes(s, d, RecTim, InRecvTime);
      CurrAwake(s, x);
      InsertTime(s, Apply(s, c), s.curr, d, x);
    case SendCall(p, m) =>
      RecTimHasNone(s, p);
      SentLeaves(s, p, m);
      RemoveTime(s, Apply(s, c), p, x);
    case KillCall(p) =>
      RecTimHasNone(s, s.procs[p].parent);
      SentLeaves(s, s.procs[p].parent, p);
      RemoveTime(s, Apply(s, c), s.procs[p].parent, x);
    case KillRest(p) =>
      KilledLeaves(s, p);
      RemoveTime(s, Apply(s, c), p, x);
  }

  lemma CurrAwake(s: Sys, x: int)
    requires Inv(s) && Asleep(s, x)
    ensures x != s.curr && 0 <= x < NPROC
  {
  }

  lemma RecTimHasNone(s: Sys, p: int)
    requires Inv(s) && !BadPid(s, p) && s.procs[p].state == RecTim
    ensures !s.procs[p].hasmsg
  {
    assert MsgOK(s, p);
  }

  /** A process that goes to sleep has the delay it asked for. */
  lemma SleepsAsAsked(s: Sys, c: Call)
    requires Inv(s) && CallOK(s, c)
    requires (c.SleepCall? && c.delay > 0) || (c.RecvTimeCall? && c.maxwait >= 0 && !s.procs[s.curr].hasmsg)
    ensures LooseBut(Apply(s, c), EMPTY) && Asleep(Apply(s, c), s.curr)
    ensures TimeLeft(Apply(s, c), s.curr) == if c.SleepCall? then c.delay else c.maxwait
  {
    hide LooseBut, MsgsBut, SemsBut, SleepBut, SchedOK, WentToSleep, Sleeping, Resched;
    InvLoose(s);
    InvLoose(Apply(s, c));
    if c.SleepCall? {
      SleepingGoes(s, c.delay, Sleep, Outside);
      InsertTime(s, Apply(s, c), s.curr, c.delay, s.curr);
    } else {
      SleepingGoes(s, c.maxwait, RecTim, InRecvTime);
      InsertTime(s, Apply(s, c), s.curr, c.maxwait, s.curr);
    }
  }

  /** Sleepers stand in the order in which they will wake. */
  lemma InWakingOrder(s: Sys, i: int, j: int)
    requires Inv(s) && 0 <= i < j < |Sleepers(s)|
    ensures Keyed(Sleepers(s), s.lists.key) && Left(Sleepers(s), s.lists.key, i) <= Left(Sleepers(s), s.lists.key, j)
  {
    RemainingMonotone(Sleepers(s), s.lists.key, i + 1, j + 1);
  }

  // ---- the clock --------------------------------------------------------------------------------

  /** How many at the front of the list have no time left. */
  ghost function Expired(l: seq<int>, key: seq<int>): (n: nat)
    requires Keyed(l, key)
    ensures n <= |l| && (forall j :: 0 <= j < n ==> key[l[j]] <= 0) && (n < |l| ==> key[l[n]] > 0)
    decreases |l|
  {
    if l == [] || key[l[0]] > 0 then 0
    else
      assert Keyed(l[1..], key) by { KeyedTail(l, key); }
      1 + Expired(l[1..], key)
  }

  lemma KeyedTail(l: seq<int>, key: seq<int>)
    requires Keyed(l, key) && l != []
    ensures Keyed(l[1..], key)
  {
  }

  lemma ExpiredFirst(l: seq<int>, key: seq<int>)
    requires Keyed(l, key)
    ensures l != [] && key[l[0]] <= 0 ==> Keyed(l[1..], key) && Expired(l, key) == 1 + Expired(l[1..], key)
    ensures l == [] || key[l[0]] > 0 ==> Expired(l, key) == 0
  {
  }

  /** One turn of the loop of wakeup. */
  lemma WakeTurn(s: Sys) returns (u: Sys)
    requires WakeReady(s) && Sleepers(s) != [] && 0 <= Sleepers(s)[0] < |s.lists.key|
             && s.lists.key[Sleepers(s)[0]] <= 0
    ensures WakeReady(u) && WakeLoop(s) == WakeLoop(u) && u.sleepq == s.sleepq
    ensures Sleepers(u) == Sleepers(s)[1..] && KeysOn(Sleepers(u), u.lists.key, s.lists.key)
  {
    hide Shape, Kept, MsgsBut, SemsBut, SleepBut, SchedOK, HomeOK, ReadyOK, PrioOK, OneCurr, Readied, KeysOn;
    PopSleepMid(s);
    var p, s1 := First(s, s.sleepq), Popped(s, s.sleepq);
    WokenIs(s1, p, EMPTY, 0);
    u := Readied(s1, p);
    ReadiedKept(s1, p);
    KeptSleep(s1, u, EMPTY, EMPTY);
    KeptKeys(s1, u);
    WakeShrinks(s);
  }

  lemma WakingFacts(s: Sys)
    requires WakeReady(s)
    ensures Sound(s) && Keyed(Sleepers(s), s.lists.key)
    ensures Sleepers(s) != [] ==> 0 <= Sleepers(s)[0] < |s.lists.key|
    ensures Sleepers(s) == [] || s.lists.key[Sleepers(s)[0]] > 0 ==> WakeLoop(s) == s
    ensures KeysOn(Sleepers(s), s.lists.key, s.lists.key)
  {
    hide Shape;
    InRange(s, s.sleepq);
  }

  /** State t has the sleep queue of s without its expired front. */
  ghost predicate Rested(s: Sys, t: Sys)
  {
    && Sound(s) && Sound(t) && t.sleepq == s.sleepq && Keyed(Sleepers(s), s.lists.key)
    && Sleepers(t) == Sleepers(s)[Expired(Sleepers(s), s.lists.key)..] && KeysOn(Sleepers(t), t.lists.key, s.lists.key)
  }

  lemma RestedStep(s: Sys, u: Sys, t: Sys)
    requires Sound(s) && Keyed(Sleepers(s), s.lists.key) && Sleepers(s) != [] && s.lists.key[Sleepers(s)[0]] <= 0
    requires Rested(u, t) && u.sleepq == s.sleepq && Sleepers(u) == Sleepers(s)[1..]
             && KeysOn(Sleepers(u), u.lists.key, s.lists.key)
    ensures Rested(s, t)
  {
    hide Sound, KeysOn, Expired;
    var l := Sleepers(s);
    ExpiredFirst(l, s.lists.key);
    ExpiredSame(l[1..], s.lists.key, u.lists.key);
    TailOfTail(l, Expired(l[1..], u.lists.key));
    KeysOnTail(l[1..], Expired(l[1..], u.lists.key), u.lists.key, s.lists.key);
    KeysOnTrans(Sleepers(t), t.lists.key, u.lists.key, s.lists.key);
  }

  /** The loop of wakeup takes exactly these off the sleep queue. */
  lemma {:induction false} WakeQueue(s: Sys)
    requires WakeReady(s)
    ensures Rested(s, WakeLoop(s))
    decreases if Sound(s) then |Sleepers(s)| else 0
  {
    hide Mid, Core, Sound, Expired, WakeLoop, KeysOn, Rested;
    WakingFacts(s);
    if Sleepers(s) != [] && s.lists.key[Sleepers(s)[0]] <= 0 {
      var u := WakeTurn(s);
      WakingFacts(u);
      WakeQueue(u);
      RestedStep(s, u, WakeLoop(u));
    } else {
      RestedSame(s);
    }
  }

  lemma RestedSame(s: Sys)
    requires Sound(s) && Keyed(Sleepers(s), s.lists.key) && (Sleepers(s) == [] || s.lists.key[Sleepers(s)[0]] > 0)
    ensures Rested(s, s)
  {
    ExpiredFirst(Sleepers(s), s.lists.key);
    KeptKeys(s, s);
  }

  lemma TailOfTail(l: seq<int>, n: nat)
    requires l != [] && n < |l|
    ensures l[1..][n..] == l[1 + n..]
  {
  }

  /** Equal keys, equal sums. */
  lemma RemainingOn(l: seq<int>, key: seq<int>, key': seq<int>, n: int)
    requires KeysOn(l, key', key) && 0 <= n <= |l|
    ensures Keyed(l, key) && Keyed(l, key') && Remaining(l, key', n) == Remaining(l, key, n)
  {
    RemainingSame(l, key, l, key', n);
  }

  lemma KeysOnTrans(l: seq<int>, a: seq<int>, b: seq<int>, c: seq<int>)
    requires KeysOn(l, a, b) && KeysOn(l, b, c)
    ensures KeysOn(l, a, c)
  {
  }

  lemma {:induction false} ExpiredSame(l: seq<int>, key: seq<int>, key': seq<int>)
    requires KeysOn(l, key', key)
    ensures Keyed(l, key) && Keyed(l, key') && Expired(l, key) == Expired(l, key')
    decreases |l|
  {
    if l == [] || key[l[0]] > 0 {
    } else {
      ExpiredSame(l[1..], key, key');
    }
  }

  lemma KeysOnTail(l: seq<int>, n: nat, key: seq<int>, key': seq<int>)
    requires KeysOn(l, key, key') && n <= |l|
    ensures KeysOn(l[n..], key, key')
  {
  }

  lemma {:induction false} SkipShift(l: seq<int>, key: seq<int>, k: int, n: int)
    requires Keyed(l, key) && 0 <= k <= |l| && 0 <= n <= |l| - k
    ensures Keyed(l[k..], key) && Remaining(l[k..], key, n) == Remaining(l, key, n + k) - Remaining(l, key, k)
    decreases n
  {
    if n == 0 {
    } else {
      SkipShift(l, key, k, n - 1);
    }
  }

  lemma {:induction false} FrontSum(l: seq<int>, key: seq<int>, n: int)
    requires Keyed(l, key) && 1 <= n <= |l| && forall j :: 1 <= j < n ==> key[l[j]] == 0
    ensures Remaining(l, key, n) == key[l[0]]
    decreases n
  {
    if n > 1 {
      FrontSum(l, key, n - 1);
    } else {
      assert Remaining(l, key, 0) == 0;
    }
  }

  /** The keys after a tick. */
  ghost function TickKeys(l: seq<int>, key: seq<int>): seq<int>
    requires Keyed(l, key) && l != []
  {
    key[l[0] := key[l[0]] - 1]
  }

  lemma TickKeysAt(l: seq<int>, key: seq<int>, n: int)
    requires DelaysOK(l, key, 0) && NoDup(l) && l != [] && 0 <= n <= |l|
    ensures var key1 := TickKeys(l, key);
            && key[l[0]] >= 0 && Keyed(l, key1) && key1[l[0]] == key[l[0]] - 1
               && (forall j :: 1 <= j < |l| ==> key1[l[j]] == key[l[j]] >= 0)
            && Remaining(l, key1, n) == Remaining(l, key, n) - if n > 0 then 1 else 0
  {
    KeyShift(l, key, 0, -1, n);
  }

  /** Those that a tick takes off the list had what the first one had: one tick, or none. */
  lemma TickTakes(l: seq<int>, key: seq<int>, i: int)
    requires Keyed(l, key) && DelaysOK(l, key, 0) && NoDup(l) && 0 <= i < |l|
    ensures Keyed(l, TickKeys(l, key))
    ensures i < Expired(l, TickKeys(l, key)) ==> Left(l, key, i) == key[l[0]] <= 1
  {
    hide DelaysOK, NoDup, TickKeys;
    var key1 := TickKeys(l, key);
    TickKeysAt(l, key, i + 1);
    if i < Expired(l, key1) {
      FrontSum(l, key1, i + 1);
    }
  }

  /** The others had more, and lose one tick if the first one had any. */
  lemma TickLeaves(l: seq<int>, key: seq<int>, i: int)
    requires Keyed(l, key) && DelaysOK(l, key, 0) && NoDup(l) && 0 <= i < |l|
    ensures Keyed(l, TickKeys(l, key))
    ensures var k := Expired(l, TickKeys(l, key));
            var d := if key[l[0]] >= 1 then 1 else 0;
            && Keyed(l[k..], TickKeys(l, key))
            && (i >= k ==> Left(l, key, i) > d && Left(l[k..], TickKeys(l, key), i - k) == Left(l, key, i) - d)
  {
    hide DelaysOK, NoDup, TickKeys, Expired, Remaining, Keyed;
    var key1 := TickKeys(l, key);
    TickKeysAt(l, key, i + 1);
    var k := Expired(l, key1);
    TickKeysAt(l, key, k);
    SkipShift(l, key1, k, 0);
    if i >= k {
      SkipShift(l, key1, k, i - k + 1);
      Behind(l, key, i, k);
      if k > 0 {
        FrontSum(l, key1, k);
      }
    }
  }

  /** Behind the expired everybody has more than they. */
  lemma Behind(l: seq<int>, key: seq<int>, i: int, k: int)
    requires DelaysOK(l, key, 0) && 0 <= k <= i < |l| && (k > 0 ==> key[l[k]] > 0) && (k == 0 ==> key[l[0]] > 1)
    ensures Remaining(l, key, i + 1) > Remaining(l, key, k)
    ensures k == 0 ==> Remaining(l, key, i + 1) > 1
  {
    RemainingMonotone(l, key, k + 1, i + 1);
  }

  /** The clock: one tick is taken from everybody, unless somebody has none left (which only a
      timed receive of no ticks brings about), and exactly those with nothing left wake. */
  lemma ClockCounts(s: Sys, x: int)
    requires Inv(s) && Asleep(s, x)
    ensures LooseBut(s, EMPTY) && LooseBut(Ticked(s), EMPTY) && Sleepers(s) != [] && 0 <= Sleepers(s)[0] < |s.lists.key|
    ensures var d := if s.lists.key[Sleepers(s)[0]] >= 1 then 1 else 0;
            && (Asleep(Ticked(s), x) <==> TimeLeft(s, x) > d)
            && (Asleep(Ticked(s), x) ==> TimeLeft(Ticked(s), x) == TimeLeft(s, x) - d)
  {
    hide LooseBut, Ticked, Expired, DelaysOK, Sound, IndexOf, Remaining, TickKeys, KeysOn;
    InvLoose(s);
    var t := Ticked(s);
    InvLoose(t);
    AsleepIsListed(s, x);
    SleepInv(s);
    var l, key := Sleepers(s), s.lists.key;
    var i := IndexOf(l, x);
    var key1 := TickKeys(l, key);
    TickTakes(l, key, i);
    TickLeaves(l, key, i);
    var k := Expired(l, key1);
    TickQueue(s);
    AsleepIsListed(t, x);
    if i >= k {
      StaysAt(l, k, i);
      RemainingOn(l[k..], key1, t.lists.key, i - k + 1);
    } else {
      NotInTail(l, k, i);
    }
  }

  lemma StaysAt(l: seq<int>, k: int, i: int)
    requires NoDup(l) && 0 <= k <= i < |l|
    ensures NoDup(l[k..]) && l[k..][i - k] == l[i] && l[i] in l[k..] && IndexOf(l[k..], l[i]) == i - k
  {
    IndexUnique(l[k..], l[i], i - k);
  }

  lemma SleepInv(s: Sys)
    requires Inv(s)
    ensures Sound(s) && DelaysOK(Sleepers(s), s.lists.key, 0) && NoDup(Sleepers(s)) && Keyed(Sleepers(s), s.lists.key)
  {
    ListNoDup(s.lists, s.sleepq);
  }

  lemma NotInTail(l: seq<int>, k: int, i: int)
    requires NoDup(l) && 0 <= i < k <= |l|
    ensures l[i] !in l[k..]
  {
  }

  /** What the clock leaves of the sleep queue. */
  lemma TickQueue(s: Sys)
    requires Inv(s) && Sleepers(s) != []
    ensures Sound(s) && Sound(Ticked(s)) && Keyed(Sleepers(s), s.lists.key)
            && Keyed(Sleepers(s), TickKeys(Sleepers(s), s.lists.key))
    ensures var key1, t := TickKeys(Sleepers(s), s.lists.key), Ticked(s);
            Sleepers(t) == Sleepers(s)[Expired(Sleepers(s), key1)..] && KeysOn(Sleepers(t), t.lists.key, key1)
  {
    hide Shape, Kept, Mid, LooseBut, SchedOK, Resched, WakeLoop, Stop, Expired, KeysOn, DelaysOK;
    SleepInv(s);
    InvSound(Ticked(s));
    InvParts(s);
    TickMid(s);
    var s1 := Ticked1(s);
    CoreSound(s1);
    TickedList(s);
    var key1 := TickKeys(Sleepers(s), s.lists.key);
    TickKeysAt(Sleepers(s), s.lists.key, 0);
    ExpiredFirst(Sleepers(s), key1);
    if s1.lists.key[First(s, s.sleepq)] <= 0 {
      WakenQueue(s1);
    } else {
      ReschedSleep(s1);
    }
  }

  lemma TickedList(s: Sys)
    requires Sound(s) && Sleepers(s) != [] && Sound(Ticked1(s))
    ensures Sleepers(Ticked1(s)) == Sleepers(s) && Ticked1(s).sleepq == s.sleepq && Keyed(Sleepers(s), s.lists.key)
    ensures Ticked1(s).lists.key == TickKeys(Sleepers(s), s.lists.key) && First(s, s.sleepq) == Sleepers(s)[0]
            && |Ticked1(s).lists.key| == NPROC
  {
    InRange(s, s.sleepq);
  }

  lemma ReschedSleep(s: Sys)
    requires Core(s)
    ensures CanRun(s) && Sound(Resched(s)) && Sleepers(Resched(s)) == Sleepers(s)
            && KeysOn(Sleepers(s), Resched(s).lists.key, s.lists.key)
  {
    hide Shape, Kept, SchedOK, Resched, KeysOn;
    ReschedKept(s);
    KeptSleep(s, Resched(s), EMPTY, EMPTY);
    KeptKeys(s, Resched(s));
  }

  lemma WakenQueue(s: Sys)
    requires WakeReady(s) && Keyed(Sleepers(s), s.lists.key)
    ensures Rested(s, Wakened(s))
  {
    hide Shape, Kept, Mid, LooseBut, SchedOK, WakeLoop, Stop, Expired, KeysOn;
    CoreSound(s);
    WakeStart(s);
    var s2 := Start(s);
    WakeQueue(s2);
    var s3 := WakeLoop(s2);
    StopKept(s3);
    KeptSleep(s3, Stop(s3), EMPTY, EMPTY);
    KeptKeys(s3, Stop(s3));
    KeysOnTrans(Sleepers(s3), Stop(s3).lists.key, s3.lists.key, s.lists.key);
  }
}
