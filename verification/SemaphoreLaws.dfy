// Semaphore laws over single calls and whole runs: waiters are served in order of arrival, and
// no more processes get past wait than the count and the signals allow.

module SemaphoreLaws {

  import opened Common
  import opened Queues
  import opened Delta
  import opened Sched
  import opened Calls
  import opened Procs
  import opened Kernel
  import opened KernelRun
  import opened Semaphores

  /** What call c does to the queue and the entry of semaphore i. */
  ghost predicate QueueMove(s: Sys, c: Call, t: Sys, i: int)
    requires Sound(s) && Sound(t) && 0 <= i < NSEM
  {
    var w, w', v, v' := WaitersOf(s, i), WaitersOf(t, i), s.sems[i], t.sems[i];
    if c == WaitCall(i) then
      w' == w + (if v.count <= 0 then [s.curr] else []) && v' == v.(count := v.count - 1)
    else if c == SignalCall(i) then
      w' == Skip(w, 1) && v' == v.(count := v.count + 1)
    else if c.SignalNCall? && c.sem == i && c.count >= 0 then
      w' == Skip(w, c.count) && v' == v.(count := v.count + c.count)
    else if c.SemResetCall? && c.sem == i && c.count >= 0 then
      w' == [] && v' == v.(count := c.count)
    else if c == SemDeleteCall(i) then
      w' == [] && !v'.used
    else if Kills(s, c, i) then
      c.pid in w && w' == Drop(w, IndexOf(w, c.pid)) && v' == v.(count := v.count + 1) && t.procs[c.pid].state == Free
    else
      w' == w && v' == v
  }

  ghost predicate Kills(s: Sys, c: Call, i: int)
    requires Sound(s)
  {
    c.KillRest? && 0 < c.pid < NPROC && s.procs[c.pid].state == Wait && s.procs[c.pid].sem == i
  }

  /** Nobody on the queue of semaphore i but the killed process ceases to exist. */
  ghost predicate Survive(s: Sys, c: Call, t: Sys)
    requires Sound(s) && Sound(t)
  {
    forall p :: 0 <= p < NPROC && s.procs[p].state != Free && !(c.KillRest? && c.pid == p) ==> t.procs[p].state != Free
  }

  lemma QueueMoves(s: Sys, c: Call, i: int)
    requires Inv(s) && CallOK(s, c) && 0 <= i < NSEM && s.sems[i].used
    ensures Sound(Apply(s, c)) && QueueMove(s, c, Apply(s, c), i) && Survive(s, c, Apply(s, c))
  {
    hide Inv, Sound, WaitersOf, Waited, Signal1, SignalledN, ResetTo, Deleted, SemCreated, Removed;
    InvSound(s);
    InvSound(Apply(s, c));
    if OnSemaphore(c) {
      SemaphoreMoves(s, c, i);
    } else if c.KillRest? && s.procs[c.pid].state == Wait {
      KillMoves(s, c, i);
    } else {
      OtherCallsKept(s, c);
      KeptMoves(s, c, Apply(s, c), i);
    }
  }

  lemma KeptMoves(s: Sys, c: Call, t: Sys, i: int)
    requires Sound(s) && Kept(s, t, EMPTY, if c.KillRest? then c.pid else EMPTY, !MovesSleeper(s, c)) && 0 <= i < NSEM
             && !OnSemaphore(c) && !Kills(s, c, i)
    ensures QueueMove(s, c, t, i) && Survive(s, c, t)
  {
    hide Shape;
  }

  lemma KeptOther(s: Sys, t: Sys, x: int, i: int)
    requires Kept(s, t, x, EMPTY, true) && 0 <= i < NSEM && i != x
    ensures WaitersOf(t, i) == WaitersOf(s, i) && t.sems[i] == s.sems[i]
  {
    hide Shape;
  }

  lemma KeptAlive(s: Sys, c: Call, t: Sys, x: int)
    requires Kept(s, t, x, EMPTY, true)
    ensures Survive(s, c, t)
  {
    hide Shape;
  }

  lemma SemaphoreMoves(s: Sys, c: Call, i: int)
    requires Inv(s) && CallOK(s, c) && 0 <= i < NSEM && s.sems[i].used && OnSemaphore(c)
    ensures Sound(s) && Sound(Apply(s, c)) && QueueMove(s, c, Apply(s, c), i) && Survive(s, c, Apply(s, c))
  {
    hide Inv, Sound, WaitersOf, Apply, CallOK, Kept, Survive;
    InvSound(s);
    var t := Apply(s, c);
    InvSound(t);
    if c.SemCreateCall? {
      CreateMoves(s, c, i);
    } else if Apply(s, c) == s {
      SameKept(s, s, EMPTY, true);
      KeptAlive(s, c, s, EMPTY);
      RefusedMoves(s, c, i);
    } else {
      CallMoves(s, c);
      KeptAlive(s, c, t, c.sem);
      if c.sem != i {
        KeptOther(s, t, c.sem, i);
      }
    }
  }

  lemma CreateMoves(s: Sys, c: Call, i: int)
    requires Inv(s) && CallOK(s, c) && 0 <= i < NSEM && s.sems[i].used && c.SemCreateCall?
    ensures Sound(s) && Sound(Apply(s, c)) && QueueMove(s, c, Apply(s, c), i) && Survive(s, c, Apply(s, c))
  {
    hide Inv, Sound, WaitersOf, SemCreated, Kept, Survive;
    InvSound(s);
    InvSound(Apply(s, c));
    if c.count >= 0 {
      SemCreatedKept(s, c.count, i);
    }
    SameProcs(s, c, Apply(s, c));
  }

  /** A call that changes nothing was refused, or gave a count or a release of none. */
  lemma RefusedMoves(s: Sys, c: Call, i: int)
    requires Inv(s) && CallOK(s, c) && 0 <= i < NSEM && s.sems[i].used && OnSemaphore(c) && !c.SemCreateCall?
    requires Apply(s, c) == s
    ensures Sound(s) && QueueMove(s, c, s, i)
  {
    hide Inv, Sound, WaitersOf, Waited, Signal1, SignalledN, ResetTo, Deleted, Kept;
    InvSound(s);
    if c.sem == i {
      match c {
        case WaitCall(j) => WaitedQueue(s, j);
        case SignalCall(j) =>
          InvParts(s);
          Signal1Queue(s, j);
        case SignalNCall(j, n) =>
          if n >= 0 {
            SignalledNQueue(s, j, n);
          }
        case SemResetCall(j, n) =>
          if n >= 0 {
            ResetKept(s, j, n);
          }
        case SemDeleteCall(j) => DeletedKept(s, j);
      }
    }
  }

  /** What a call does to the semaphore that it is about. */
  lemma CallMoves(s: Sys, c: Call)
    requires Inv(s) && CallOK(s, c) && OnSemaphore(c) && !c.SemCreateCall? && Apply(s, c) != s
    ensures Sound(s) && Sound(Apply(s, c)) && 0 <= c.sem < NSEM
    ensures Kept(s, Apply(s, c), c.sem, EMPTY, true) && QueueMove(s, c, Apply(s, c), c.sem)
  {
    hide Inv, Sound, WaitersOf, Waited, Signal1, SignalledN, ResetTo, Deleted, Kept;
    InvSound(s);
    InvSound(Apply(s, c));
    SemCount(s);
    match c {
      case WaitCall(j) => WaitedQueue(s, j);
      case SignalCall(j) =>
        InvParts(s);
        Signal1Queue(s, j);
      case SignalNCall(j, n) => SignalledNQueue(s, j, n);
      case SemResetCall(j, n) => ResetKept(s, j, n);
      case SemDeleteCall(j) => DeletedKept(s, j);
    }
  }

  lemma SemCount(s: Sys)
    requires Sound(s)
    ensures |s.sems| == NSEM
  {
  }

  lemma SameProcs(s: Sys, c: Call, t: Sys)
    requires Sound(s) && Sound(t) && t.procs == s.procs
    ensures Survive(s, c, t)
  {
    hide Shape;
  }

  lemma KillMoves(s: Sys, c: Call, i: int)
    requires Inv(s) && CallOK(s, c) && 0 <= i < NSEM && c.KillRest? && s.procs[c.pid].state == Wait
    ensures Sound(s) && Sound(Apply(s, c)) && QueueMove(s, c, Apply(s, c), i) && Survive(s, c, Apply(s, c))
  {
    hide Inv, Shape, Drop;
    InvSound(s);
    InvSound(Apply(s, c));
    UnwaitedQueue(s, c.pid);
    KilledIsFree(s, c.pid);
  }

  lemma KilledIsFree(s: Sys, p: int)
    requires Inv(s) && 0 < p < NPROC && s.procs[p].state == Wait
    ensures |Unwaited(s, p).procs| == NPROC && Unwaited(s, p).procs[p].state == Free
  {
    InvSound(s);
  }

  // ---- how many get past wait ------------------------------------------------------------------

  /** The processes that call c lets past wait on semaphore i: those that leave its queue alive,
      and the caller of wait itself if it is not on the queue afterwards. */
  ghost function Passed(s: Sys, c: Call, i: int): nat
    requires Inv(s) && CallOK(s, c) && 0 <= i < NSEM && s.sems[i].used
  {
    InvSound(s);
    InvSound(Apply(s, c));
    var t := Apply(s, c);
    |Gone(WaitersOf(s, i), WaitersOf(t, i), t.procs)| + if c == WaitCall(i) && s.curr !in WaitersOf(t, i) then 1 else 0
  }

  ghost function Gone(w: seq<int>, w': seq<int>, procs: seq<Proc>): set<int>
  {
    set p | p in w && p !in w' && 0 <= p < |procs| && procs[p].state != Free
  }

  function Signals(c: Call, i: int): nat
  {
    match c
    case SignalCall(j) => if j == i then 1 else 0
    case SignalNCall(j, n) => if j == i && n > 0 then n else 0
    case _ => 0
  }

  /** Those who leave the front of a queue alive are counted one by one. */
  lemma GoneFromFront(w: seq<int>, n: nat, procs: seq<Proc>)
    requires NoDup(w) && forall p :: p in w ==> 0 <= p < |procs| && procs[p].state != Free
    ensures |Gone(w, Skip(w, n), procs)| == if n <= |w| then n else |w|
  {
    var k := if n <= |w| then n else |w|;
    SetOfSeq(w[..k]);
    forall p
      ensures p in w && p !in Skip(w, n) <==> p in w[..k]
    {
      assert w == w[..k] + Skip(w, n);
    }
    assert Gone(w, Skip(w, n), procs) == Elems(w[..k]);
  }

  lemma GoneNone(w: seq<int>, w': seq<int>, procs: seq<Proc>)
    requires forall p :: p in w && 0 <= p < |procs| && procs[p].state != Free ==> p in w'
    ensures Gone(w, w', procs) == {}
  {
  }

  lemma WaitersAlive(s: Sys, i: int, p: int)
    requires Inv(s) && 0 <= i < NSEM && p in WaitersOf(s, i)
    ensures 0 <= p < NPROC && s.procs[p].state == Wait && s.procs[p].sem == i
  {
    QueueOf(s, i);
    OnHome(s.lists, s.sems[i].queue, p);
    HeadIds(s);
    assert HomeOK(s, p);
  }

  lemma WaitersCount(s: Sys, i: int)
    requires Inv(s) && 0 <= i < NSEM && s.sems[i].used
    ensures |WaitersOf(s, i)| == Max0(-s.sems[i].count) && NoDup(WaitersOf(s, i))
  {
    assert CountOK(s, i);
    QueueOf(s, i);
    ListNoDup(s.lists, s.sems[i].queue);
  }

  /** One call: processes let past wait are paid for by the count and the signals. */
  lemma CallBalance(s: Sys, c: Call, i: int)
    requires Inv(s) && CallOK(s, c) && 0 <= i < NSEM && s.sems[i].used
    requires !(c.SemResetCall? && c.sem == i) && c != SemDeleteCall(i)
    ensures |Apply(s, c).sems| == NSEM && Apply(s, c).sems[i].used
    ensures Passed(s, c, i) + Max0(Apply(s, c).sems[i].count) == Max0(s.sems[i].count) + Signals(c, i)
  {
    hide Inv, Sound, WaitersOf, Apply, CallOK, Gone;
    InvSound(s);
    var t := Apply(s, c);
    InvSound(t);
    QueueMoves(s, c, i);
    WaitersCount(s, i);
    var w, w' := WaitersOf(s, i), WaitersOf(t, i);
    SoundSizes(t);
    forall p | p in w
      ensures 0 <= p < NPROC && (!(c.KillRest? && c.pid == p) ==> t.procs[p].state != Free)
    {
      WaitersAlive(s, i, p);
    }
    if c == WaitCall(i) {
      GoneNone(w, w', t.procs);
    } else if c == SignalCall(i) {
      GoneFromFront(w, 1, t.procs);
    } else if c.SignalNCall? && c.sem == i && c.count >= 0 {
      GoneFromFront(w, c.count, t.procs);
    } else if Kills(s, c, i) {
      NotFreeCount(s, c, i);
      forall p | p in w && t.procs[p].state != Free
        ensures p in w'
      {
        DropIsIn(w, IndexOf(w, c.pid), p);
      }
      GoneNone(w, w', t.procs);
    } else {
      GoneNone(w, w', t.procs);
    }
  }

  lemma SoundSizes(s: Sys)
    requires Sound(s)
    ensures |s.procs| == NPROC && |s.sems| == NSEM
  {
  }

  lemma NotFreeCount(s: Sys, c: Call, i: int)
    requires Inv(s) && 0 <= i < NSEM && s.sems[i].used && Kills(s, c, i)
    ensures s.sems[i].count < 0
  {
    UnwaitedQueue(s, c.pid);
    WaitersCount(s, i);
  }

  /** Semaphore i is neither reset nor deleted in the run. */
  predicate Undisturbed(calls: seq<Call>, i: int)
  {
    forall k :: 0 <= k < |calls| ==> !(calls[k].SemResetCall? && calls[k].sem == i) && calls[k] != SemDeleteCall(i)
  }

  ghost function TotalPassed(s: Sys, calls: seq<Call>, i: int): nat
    requires Inv(s) && RunOK(s, calls) && 0 <= i < NSEM && s.sems[i].used && Undisturbed(calls, i)
    decreases |calls|
  {
    if calls == [] then 0
    else
      CallBalance(s, calls[0], i);
      Passed(s, calls[0], i) + TotalPassed(Apply(s, calls[0]), calls[1..], i)
  }

  function TotalSignals(calls: seq<Call>, i: int): nat
  {
    if calls == [] then 0 else Signals(calls[0], i) + TotalSignals(calls[1..], i)
  }

  /** Over any run without reset or deletion of the semaphore, the processes past wait and the
      count left over equal the count at the start and the signals. */
  lemma {:induction false} RunBalance(s: Sys, calls: seq<Call>, i: int)
    requires Inv(s) && RunOK(s, calls) && 0 <= i < NSEM && s.sems[i].used && Undisturbed(calls, i)
    ensures |Run(s, calls).sems| == NSEM
    ensures TotalPassed(s, calls, i) + Max0(Run(s, calls).sems[i].count)
            == Max0(s.sems[i].count) + TotalSignals(calls, i)
    decreases |calls|
  {
    hide Inv, Sound, Apply, CallOK, Passed;
    InvSound(s);
    SoundSizes(s);
    if calls == [] {
    } else {
      CallBalance(s, calls[0], i);
      RunBalance(Apply(s, calls[0]), calls[1..], i);
    }
  }

  // ---- order of arrival -------------------------------------------------------------------------

  ghost predicate Before(l: seq<int>, a: int, b: int)
  {
    exists x, y :: 0 <= x < y < |l| && l[x] == a && l[y] == b
  }

  /** If a waits in front of b, then b does not get past wait while a still waits, and as long as
      both wait a stays in front. */
  lemma FirstComeFirstServed(s: Sys, c: Call, i: int, a: int, b: int)
    requires Inv(s) && CallOK(s, c) && 0 <= i < NSEM && s.sems[i].used && Before(WaitersOf(s, i), a, b)
    ensures var t := Apply(s, c);
            && Sound(t)
            && (a in WaitersOf(t, i) && b in WaitersOf(t, i) ==> Before(WaitersOf(t, i), a, b))
            && (a in WaitersOf(t, i) && b !in WaitersOf(t, i) ==> c == KillRest(b))
  {
    hide Inv, Sound, WaitersOf, Apply, CallOK;
    InvSound(s);
    var t := Apply(s, c);
    InvSound(t);
    QueueMoves(s, c, i);
    WaitersCount(s, i);
    var w, w' := WaitersOf(s, i), WaitersOf(t, i);
    var x, y :| 0 <= x < y < |w| && w[x] == a && w[y] == b;
    if c == WaitCall(i) {
      assert w'[x] == a && w'[y] == b;
    } else if c == SignalCall(i) {
      SkipOrder(w, 1, x, y);
    } else if c.SignalNCall? && c.sem == i && c.count >= 0 {
      SkipOrder(w, c.count, x, y);
    } else if Kills(s, c, i) {
      DropOrder(w, IndexOf(w, c.pid), x, y);
    }
  }

  lemma SkipOrder(w: seq<int>, n: nat, x: int, y: int)
    requires NoDup(w) && 0 <= x < y < |w|
    ensures w[x] in Skip(w, n) ==> Before(Skip(w, n), w[x], w[y])
  {
    if w[x] in Skip(w, n) {
      var k :| 0 <= k < |Skip(w, n)| && Skip(w, n)[k] == w[x];
      assert w[n + k] == w[x];
      assert Skip(w, n)[x - n] == w[x] && Skip(w, n)[y - n] == w[y];
    }
  }

  lemma DropOrder(w: seq<int>, i: int, x: int, y: int)
    requires NoDup(w) && 0 <= x < y < |w| && 0 <= i < |w|
    ensures x != i && y != i ==> Before(Drop(w, i), w[x], w[y])
    ensures w[i] !in Drop(w, i)
    ensures y != i ==> w[y] in Drop(w, i)
  {
    DropIsIn(w, i, w[i]);
    DropIsIn(w, i, w[y]);
    if x != i && y != i {
      assert Drop(w, i)[if x < i then x else x - 1] == w[x] && Drop(w, i)[if y < i then y else y - 1] == w[y];
    }
  }
}
