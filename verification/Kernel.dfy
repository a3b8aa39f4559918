// The process manager: queue table, process table and semaphore table, changed in place by the
// kernel calls (system/*.c as named at each method).

module Kernel {

  import opened Common
  import opened Queues
  import opened Delta
  import opened Sched
  import opened Calls
  import opened Procs

  const TIMEOUT := -3

  function BadQid(q: int): bool { q < 0 || q >= NQENT - 1 }

  class Machine {
    const queuetab: array<QEntry>
    const proctab: array<Proc>
    const semtab: array<Sem>
    var currpid: int
    var ndefers: int
    var attempt: bool
    var nextpid: int
    var nextsem: int
    var nextqid: int
    var readylist: int
    var sleepq: int
    ghost var lists: Lists
    /** Where each process will go on when it runs again: its saved context. */
    ghost var at: seq<Place>

    /** The state that the tables stand for. */
    ghost function Now(): Sys
      reads this, proctab, semtab
    {
      Sys(proctab[..], semtab[..], lists, at, currpid, ndefers, attempt, nextpid, nextsem, readylist, sleepq)
    }

    /** Every list is threaded through the queue table, doubly linked and without overlap. */
    ghost predicate Linked()
      reads this, queuetab
    {
      Threaded(queuetab[..], lists)
    }

    predicate BadPidNow(pid: int)
      reads this, proctab
    {
      pid < 0 || pid >= proctab.Length || proctab[pid].state == Free
    }

    // ---- queue.c, getitem.c, insert.c, insertd.c -------------------------------------------

    /** enqueue: a process goes to the end of a queue. */
    method Enqueue(pid: int, q: int) returns (r: int)
      requires Linked() && Sound(Now())
      requires !BadQid(q) && !BadPidNow(pid) ==> q in lists.on && lists.home[pid] == EMPTY
      modifies this`lists, queuetab
      ensures Linked() && Sound(Now())
      ensures r == if BadQid(q) || BadPidNow(pid) then SYSERR else pid
      ensures Now() == if BadQid(q) || BadPidNow(pid) then old(Now()) else Enqueued(old(Now()), q, pid)
    {
      hide Shape, Threaded, NoDup;
      if BadQid(q) || BadPidNow(pid) {
        return SYSERR;
      }
      ghost var t, l := queuetab[..], lists.on[q];
      EndKeys(t, lists, q);
      LinkAt(t, lists, q, |l|);
      PutThreaded(t, lists, q, |l|, pid, t[pid].qkey);
      KeyIs(t, lists, pid);
      PutShape(lists, q, |l|, pid);
      var tail := q + 1;
      var prev := queuetab[tail].qprev;
      queuetab[pid] := queuetab[pid].(qnext := tail);
      queuetab[pid] := queuetab[pid].(qprev := prev);
      queuetab[prev] := queuetab[prev].(qnext := pid);
      queuetab[tail] := queuetab[tail].(qprev := pid);
      assert queuetab[..] == Spliced(t, q, l, |l|, pid, t[pid].qkey);
      lists := PutAt(lists, q, |l|, pid);
      return pid;
    }

    /** getitem: a process leaves the list it is on. */
    method GetItem(pid: int) returns (r: int)
      requires Linked() && Sound(Now()) && 0 <= pid < NPROC && lists.home[pid] != EMPTY
      modifies this`lists, queuetab
      ensures Linked() && Sound(Now()) && r == pid && Now() == Unlinked(old(Now()), pid)
    {
      hide Shape, Threaded, NoDup;
      ShapeSizes(lists);
      HomeHolds(lists, pid);
      ghost var t, q := queuetab[..], lists.home[pid];
      ghost var l := lists.on[q];
      ghost var i := IndexOf(l, pid);
      EndKeys(t, lists, q);
      DropThreaded(t, lists, q, i);
      DropShape(lists, q, i);
      var next := queuetab[pid].qnext;
      var prev := queuetab[pid].qprev;
      queuetab[prev] := queuetab[prev].(qnext := next);
      queuetab[next] := queuetab[next].(qprev := prev);
      assert queuetab[..] == Cut(t, q, l, i);
      lists := DropAt(lists, q, i);
      return pid;
    }

    /** getfirst: the process at the front of a queue leaves it. */
    method GetFirst(q: int) returns (r: int)
      requires Linked() && Sound(Now()) && q in lists.on
      modifies this`lists, queuetab
      ensures Linked() && Sound(Now())
      ensures r == if old(lists.on[q]) == [] then EMPTY else old(lists.on[q])[0]
      ensures Now() == if old(lists.on[q]) == [] then old(Now()) else Popped(old(Now()), q)
    {
      hide Shape, Threaded, NoDup, Sound;
      FirstNode(queuetab[..], lists, q);
      if queuetab[q].qnext >= NPROC {
        return EMPTY;
      }
      FirstHome(Now(), q);
      r := GetItem(queuetab[q].qnext);
    }

    /** getlast: the process at the end of a queue leaves it. */
    method GetLast(q: int) returns (r: int)
      requires Linked() && Sound(Now()) && q in lists.on
      modifies this`lists, queuetab
      ensures Linked() && Sound(Now())
      ensures r == if old(lists.on[q]) == [] then EMPTY else old(lists.on[q])[|old(lists.on[q])| - 1]
      ensures old(lists.on[q]) == [] ==> Now() == old(Now())
      ensures old(lists.on[q]) != [] ==> Now() == Unlinked(old(Now()), r)
    {
      hide Shape, Threaded, NoDup;
      LastNode(queuetab[..], lists, q);
      FirstNode(queuetab[..], lists, q);
      if queuetab[q].qnext >= NPROC {
        return EMPTY;
      }
      HomeOfIndex(lists, q, |lists.on[q]| - 1);
      HeadNotEmpty(q);
      r := GetItem(queuetab[q + 1].qprev);
    }

    /** dequeue: the process at the front of a queue leaves it, its links cleared. */
    method Dequeue(q: int) returns (r: int)
      requires Linked() && Sound(Now()) && (!BadQid(q) ==> q in lists.on)
      modifies this`lists, queuetab
      ensures Linked() && Sound(Now())
      ensures r == if BadQid(q) then SYSERR else if old(lists.on[q]) == [] then EMPTY else old(lists.on[q])[0]
      ensures Now() == if BadQid(q) || old(lists.on[q]) == [] then old(Now()) else Popped(old(Now()), q)
    {
      hide Shape, Threaded, NoDup, Sound;
      if BadQid(q) {
        return SYSERR;
      }
      FirstNode(queuetab[..], lists, q);
      if queuetab[q].qnext >= NPROC {
        return EMPTY;
      }
      FirstHome(Now(), q);
      r := GetFirst(q);
      PoppedHome(old(Now()), q);
      ghost var t := queuetab[..];
      OffThreaded(t, lists, r, QEntry(t[r].qkey, EMPTY, EMPTY));
      KeyIs(t, lists, r);
      queuetab[r] := queuetab[r].(qprev := EMPTY);
      queuetab[r] := queuetab[r].(qnext := EMPTY);
      assert queuetab[..] == t[r := QEntry(t[r].qkey, EMPTY, EMPTY)];
    }

    /** The loop of insert: the first node with a smaller key.  The tail's key, the smallest there
        is, ends the search. */
    method FindKey(q: int, key: int) returns (curr: int)
      requires Linked() && Sound(Now()) && q in lists.on && key > MINKEY
      ensures Keyed(lists.on[q], lists.key)
              && curr == Node(q, lists.on[q], InsertPos(lists.on[q], lists.key, key, 0) + 1)
    {
      hide Shape, Threaded, NoDup, Sound;
      ghost var t, l := queuetab[..], lists.on[q];
      InRange(Now(), q);
      FirstNode(t, lists, q);
      NodeKey(t, lists, q, 0);
      ghost var i := 0;
      curr := queuetab[q].qnext;
      while queuetab[curr].qkey >= key
        invariant 0 <= i <= |l| && curr == Node(q, l, i + 1) && 0 <= curr < NQENT
        invariant queuetab[curr].qkey == if i < |l| then lists.key[l[i]] else MINKEY
        invariant InsertPos(l, lists.key, key, 0) == InsertPos(l, lists.key, key, i)
        decreases |l| - i
      {
        LinkAt(t, lists, q, i + 1);
        NodeKey(t, lists, q, i + 1);
        curr := queuetab[curr].qnext;
        i := i + 1;
      }
    }

    /** insert: a process goes behind all with the same or a greater key. */
    method Insert(pid: int, q: int, key: int) returns (r: int)
      requires Linked() && Sound(Now()) && key > MINKEY
      requires !BadQid(q) && !BadPidNow(pid) ==> q in lists.on && lists.home[pid] == EMPTY
      modifies this`lists, queuetab
      ensures Linked() && Sound(Now())
      ensures r == if BadQid(q) || BadPidNow(pid) then SYSERR else OK
      ensures Now() == if BadQid(q) || BadPidNow(pid) then old(Now()) else Inserted(old(Now()), q, pid, key)
    {
      hide Shape, Threaded, NoDup, Node;
      if BadQid(q) || BadPidNow(pid) {
        return SYSERR;
      }
      ghost var t, l := queuetab[..], lists.on[q];
      var curr := FindKey(q, key);
      ghost var i := InsertPos(l, lists.key, key, 0);
      LinkAt(t, lists, q, i);
      PutThreaded(t, lists, q, i, pid, key);
      PutShape(lists, q, i, pid);
      KeyShape(PutAt(lists, q, i, pid), pid, key);
      var prev := queuetab[curr].qprev;
      queuetab[pid] := queuetab[pid].(qnext := curr);
      queuetab[pid] := queuetab[pid].(qprev := prev);
      queuetab[pid] := queuetab[pid].(qkey := key);
      queuetab[prev] := queuetab[prev].(qnext := pid);
      queuetab[curr] := queuetab[curr].(qprev := pid);
      assert queuetab[..] == Spliced(t, q, l, i, pid, key);
      lists := WithKey(PutAt(lists, q, i, pid), pid, key);
      return OK;
    }

    /** The delay of a process changes by d. */
    method AddToKey(pid: int, d: int)
      requires Linked() && Sound(Now()) && 0 <= pid < NPROC
      modifies this`lists, queuetab
      ensures Linked() && Sound(Now()) && |old(lists.key)| == NPROC
      ensures Now() == old(Now()).(lists := WithKey(old(lists), pid, old(lists.key)[pid] + d))
    {
      hide Shape, Threaded, NoDup;
      ghost var t := queuetab[..];
      KeyIs(t, lists, pid);
      KeyThreaded(t, lists, pid, t[pid].qkey + d);
      KeyShape(lists, pid, t[pid].qkey + d);
      queuetab[pid] := queuetab[pid].(qkey := queuetab[pid].qkey + d);
      assert queuetab[..] == t[pid := t[pid].(qkey := t[pid].qkey + d)];
      lists := WithKey(lists, pid, t[pid].qkey + d);
    }

    /** The loop of insertd: the first node that is due later, and the delay left there. */
    method FindDelay(q: int, delay: int) returns (prev: int, next: int, key: int)
      requires Linked() && Sound(Now()) && q in lists.on
      ensures Keyed(lists.on[q], lists.key) && key == DeltaPos(lists.on[q], lists.key, delay, 0).1
      ensures var i := DeltaPos(lists.on[q], lists.key, delay, 0).0;
              prev == Node(q, lists.on[q], i) && next == Node(q, lists.on[q], i + 1)
    {
      hide Shape, Threaded, NoDup, Sound;
      ghost var t, l := queuetab[..], lists.on[q];
      InRange(Now(), q);
      FirstNode(t, lists, q);
      NodeKey(t, lists, q, 0);
      TailNode(Now(), q, 0);
      ghost var i := 0;
      key := delay;
      prev := q;
      next := queuetab[q].qnext;
      while next != q + 1 && queuetab[next].qkey <= key
        invariant 0 <= i <= |l| && prev == Node(q, l, i) && next == Node(q, l, i + 1) && 0 <= next < NQENT
        invariant queuetab[next].qkey == if i < |l| then lists.key[l[i]] else MINKEY
        invariant next == q + 1 <==> i == |l|
        invariant DeltaPos(l, lists.key, delay, 0) == DeltaPos(l, lists.key, key, i)
        decreases |l| - i
      {
        LinkAt(t, lists, q, i + 1);
        NodeKey(t, lists, q, i + 1);
        TailNode(Now(), q, i + 1);
        key := key - queuetab[next].qkey;
        prev := next;
        next := queuetab[next].qnext;
        i := i + 1;
      }
    }

    /** insertd: a process goes on the delta list; the delay of its follower is reduced. */
    method InsertD(pid: int, q: int, delay: int) returns (r: int)
      requires Linked() && Sound(Now())
      requires !BadQid(q) && !BadPidNow(pid) ==> q in lists.on && lists.home[pid] == EMPTY
      modifies this`lists, queuetab
      ensures Linked() && Sound(Now())
      ensures r == if BadQid(q) || BadPidNow(pid) then SYSERR else OK
      ensures Now() == if BadQid(q) || BadPidNow(pid) then old(Now()) else InsertedD(old(Now()), q, pid, delay)
    {
      hide Shape, Threaded, NoDup, Node, DeltaPos;
      if BadQid(q) || BadPidNow(pid) {
        return SYSERR;
      }
      ghost var t, l := queuetab[..], lists.on[q];
      var prev, next, key := FindDelay(q, delay);
      ghost var i := DeltaPos(l, lists.key, delay, 0).0;
      TailNode(Now(), q, i);
      LinkAt(t, lists, q, i);
      PutThreaded(t, lists, q, i, pid, key);
      PutShape(lists, q, i, pid);
      KeyShape(PutAt(lists, q, i, pid), pid, key);
      queuetab[pid] := queuetab[pid].(qnext := next);
      queuetab[pid] := queuetab[pid].(qprev := prev);
      queuetab[pid] := queuetab[pid].(qkey := key);
      queuetab[prev] := queuetab[prev].(qnext := pid);
      queuetab[next] := queuetab[next].(qprev := pid);
      assert queuetab[..] == Spliced(t, q, l, i, pid, key);
      lists := WithKey(PutAt(lists, q, i, pid), pid, key);
      if next != q + 1 {
        AddToKey(next, -key);
      }
      return OK;
    }

    /** unsleep: only a sleeping or timed-receiving process is taken off the sleep queue. */
    method Unsleep(pid: int) returns (r: int)
      requires Linked() && Sound(Now())
      requires !BadPidNow(pid) && proctab[pid].state in {PState.Sleep, PState.RecTim} ==>
               lists.home[pid] == sleepq && sleepq != EMPTY
      modifies this`lists, queuetab
      ensures Linked() && Sound(Now())
      ensures r == if BadPidNow(pid) || proctab[pid].state !in {PState.Sleep, PState.RecTim} then SYSERR else OK
      ensures Now() == if r == SYSERR then old(Now()) else Unslept(old(Now()), pid)
    {
      hide Shape, Threaded, NoDup;
      if BadPidNow(pid) {
        return SYSERR;
      }
      if proctab[pid].state != PState.Sleep && proctab[pid].state != PState.RecTim {
        return SYSERR;
      }
      HomeHolds(lists, pid);
      InRange(Now(), sleepq);
      ghost var t, l, s0 := queuetab[..], lists.on[sleepq], Now();
      ghost var i := IndexOf(l, pid);
      DropThreaded(t, lists, sleepq, i);
      FollowerIs(Now(), sleepq, i);
      KeyIs(t, lists, pid);
      var pidnext := queuetab[pid].qnext;
      if pidnext < NPROC {
        AddToKey(pidnext, queuetab[pid].qkey);
      }
      var x := GetItem(pid);
      return OK;
    }

    // ---- resched.c, ready.c ------------------------------------------------------------------

    /** resched: nothing but a note while deferral is on; otherwise a process of the highest
        priority among the current and the ready ones becomes current. */
    method Resched()
      requires Linked() && LooseBut(Now(), EMPTY) && (ndefers > 0 ==> proctab[currpid].state == Curr)
      modifies this`lists, this`currpid, this`attempt, queuetab, proctab
      ensures Linked() && CanRun(old(Now())) && Now() == Sched.Resched(old(Now()))
    {
      hide LooseBut, Sound, Threaded, Inserted, Popped;
      LooseFacts(Now(), EMPTY);
      SomeoneCanRun(Now());
      if ndefers > 0 {
        attempt := true;
        return;
      }
      if proctab[currpid].state == Curr {
        CurrFacts(Now());
        FirstNode(queuetab[..], lists, readylist);
        NodeKey(queuetab[..], lists, readylist, 0);
        if proctab[currpid].prio > queuetab[queuetab[readylist].qnext].qkey {
          return;
        }
        PutReady(Now(), currpid);
        StateSound(Now(), currpid, PState.Ready);
        proctab[currpid] := proctab[currpid].(state := PState.Ready);
        assert Now() == SetState(old(Now()), currpid, PState.Ready);
        var r := Insert(currpid, readylist, proctab[currpid].prio);
        assert Now() == MakeReady(old(Now()), currpid);
      }
      DispatchFacts(Now());
      currpid := Dequeue(readylist);
      proctab[currpid] := proctab[currpid].(state := Curr);
    }

    /** ready: a process that is on no list becomes ready. */
    method Ready(pid: int) returns (r: int)
      requires Linked() && LooseBut(Now(), pid) && proctab[currpid].state == Curr && pid != currpid
      modifies this`lists, this`currpid, this`attempt, queuetab, proctab
      ensures Linked()
      ensures r == if old(BadPidNow(pid)) then SYSERR else OK
      ensures Now() == if old(BadPidNow(pid)) then old(Now()) else Readied(old(Now()), pid)
    {
      hide LooseBut, Sound, Threaded, Inserted;
      LooseFacts(Now(), pid);
      if BadPidNow(pid) {
        return SYSERR;
      }
      ReadyLoose(Now(), pid);
      StateSound(Now(), pid, PState.Ready);
      HomeNone(Now(), pid);
      PrioFacts(Now(), pid, pid);
      proctab[pid] := proctab[pid].(state := PState.Ready);
      assert Now() == SetState(old(Now()), pid, PState.Ready);
      r := Insert(pid, readylist, proctab[pid].prio);
      assert Now() == MakeReady(old(Now()), pid);
      SameCurr(old(Now()), pid);
      Resched();
      return OK;
    }

    /** resched_cntl(DEFER_START). */
    method DeferStart()
      modifies this`ndefers, this`attempt
      ensures Now() == Start(old(Now()))
    {
      if ndefers == 0 {
        attempt := false;
      }
      ndefers := ndefers + 1;
    }

    /** resched_cntl(DEFER_STOP). */
    method DeferStop() returns (r: int)
      requires Linked() && Core(Now())
      modifies this`lists, this`currpid, this`attempt, this`ndefers, queuetab, proctab
      ensures Linked() && Now() == Stop(old(Now()))
      ensures r == if old(ndefers) <= 0 then SYSERR else OK
    {
      hide LooseBut, Sound, Threaded, Sched.Resched;
      if ndefers <= 0 {
        return SYSERR;
      }
      ghost var s := Now();
      LooseFacts(s, EMPTY);
      ndefers := ndefers - 1;
      FrameLoose(s, Now(), EMPTY);
      if ndefers == 0 && attempt {
        Resched();
      }
      return OK;
    }

    // ---- semaphores -----------------------------------------------------------------------------

    predicate BadSem(sem: int)
      reads this, semtab
    {
      sem < 0 || sem >= semtab.Length || !semtab[sem].used
    }

    /** wait. */
    method Wait(sem: int) returns (r: int)
      requires Linked() && Inv(Now())
      requires !BadSem(sem) && semtab[sem].count <= 0 ==> currpid != NULLPROC && ndefers == 0
      modifies this`lists, this`currpid, this`attempt, queuetab, proctab, semtab
      ensures Linked()
      ensures r == if old(BadSem(sem)) then SYSERR else OK
      ensures Now() == if old(BadSem(sem)) then old(Now()) else Waited(old(Now()), sem)
    {
      hide Mid, Sound, Threaded, Inserted, Inv, Sched.Resched, PutAt;
      InvFacts(Now());
      if BadSem(sem) {
        return SYSERR;
      }
      ghost var s := Now();
      WaitInv(s, sem);
      semtab[sem] := semtab[sem].(count := semtab[sem].count - 1);
      assert Now() == SetCount(s, sem, s.sems[sem].count - 1);
      if semtab[sem].count < 0 {
        WaitingLoose(s, sem);
        Block(sem);
        Resched();
      }
      return OK;
    }

    /** The current process records the semaphore and goes to the end of its queue. */
    method Block(sem: int)
      requires Linked() && Sound(Now()) && 0 <= sem < NSEM && proctab[currpid].state == Curr
               && lists.home[currpid] == EMPTY
      modifies this`lists, queuetab, proctab
      ensures Linked() && Now() == Waiting(old(Now()), sem)
    {
      hide Threaded, Shape, PutAt;
      ghost var s1 := Now();
      QueueFacts(s1, sem);
      proctab[currpid] := proctab[currpid].(state := PState.Wait);
      proctab[currpid] := proctab[currpid].(sem := sem);
      ghost var s2 := Now();
      assert s2 == SetProc(s1, s1.curr, s1.procs[s1.curr].(state := PState.Wait, sem := sem));
      var x := Enqueue(currpid, semtab[sem].queue);
    }

    /** signal. */
    method Signal(sem: int) returns (r: int)
      requires Linked() && Inv(Now())
      modifies this`lists, this`currpid, this`attempt, queuetab, proctab, semtab
      ensures Linked()
      ensures r == if old(BadSem(sem)) then SYSERR else OK
      ensures Now() == if old(BadSem(sem)) then old(Now()) else Signalled(old(Now()), sem)
    {
      hide Mid, Sound, Threaded, Inv;
      InvFacts(Now());
      if BadSem(sem) {
        return SYSERR;
      }
      Release1(sem);
      return OK;
    }

    /** if ((semptr->scount++) < 0) ready(dequeue(semptr->squeue)), as in signal and signaln. */
    method Release1(sem: int)
      requires Linked() && Mid(Now(), EMPTY, EMPTY, 0) && Core(Now()) && 0 <= sem < NSEM && semtab[sem].used
      modifies this`lists, this`currpid, this`attempt, queuetab, proctab, semtab
      ensures Linked() && Now() == Signal1(old(Now()), sem)
    {
      hide Mid, LooseBut, Sound, Threaded, Inserted, Sched.Resched, Readied, Popped;
      ghost var s := Now();
      LooseFacts(s, EMPTY);
      SignalInv(s, sem);
      semtab[sem] := semtab[sem].(count := semtab[sem].count + 1);
      ghost var s1 := Now();
      assert s1 == SetCount(s, sem, s.sems[sem].count + 1);
      if semtab[sem].count - 1 < 0 {
        QueueFacts(s1, sem);
        var pid := Dequeue(semtab[sem].queue);
        WokenFacts(Now(), pid, EMPTY, 0);
        var x := Ready(pid);
      }
    }

    /** signaln. */
    method SignalN(sem: int, count: int) returns (r: int)
      requires Linked() && Inv(Now())
      modifies this`lists, this`currpid, this`attempt, this`ndefers, queuetab, proctab, semtab
      ensures Linked()
      ensures r == if old(BadSem(sem)) || count < 0 then SYSERR else OK
      ensures Now() == if old(BadSem(sem)) || count < 0 then old(Now()) else SignalledN(old(Now()), sem, count)
    {
      hide Mid, LooseBut, Sound, Threaded, Signal1, Stop, Inv, SchedOK;
      InvFacts(Now());
      if BadSem(sem) || count < 0 {
        return SYSERR;
      }
      ghost var s := Now();
      StartMid(s, EMPTY, 0);
      DeferStart();
      assert Now() == Start(s);
      var n := count;
      while n > 0
        invariant 0 <= n <= count && Linked() && Mid(Now(), EMPTY, EMPTY, 0) && Core(Now())
        invariant semtab.Length == NSEM && semtab[sem].used
        invariant SignalLoop(Now(), sem, n) == SignalLoop(Start(s), sem, count)
        decreases n
      {
        ghost var s1 := Now();
        Release1(sem);
        assert Now() == Signal1(s1, sem);
        assert SignalLoop(s1, sem, n) == SignalLoop(Signal1(s1, sem), sem, n - 1);
        n := n - 1;
      }
      var x := DeferStop();
      return OK;
    }

    /** The first waiting process, if any, is made ready, as in semreset and semdelete. */
    method ReleaseFirst(sem: int) returns (pid: int)
      requires Linked() && Mid(Now(), EMPTY, sem, 0) && Core(Now()) && 0 <= sem < NSEM
      modifies this`lists, this`currpid, this`attempt, queuetab, proctab
      ensures Linked() && (pid == EMPTY <==> old(lists.on[semtab[sem].queue]) == [])
      ensures Now() == if pid == EMPTY then old(Now()) else Released(old(Now()), sem)
    {
      hide Mid, LooseBut, Sound, Threaded, Popped, Readied;
      ghost var s := Now();
      LooseFacts(s, EMPTY);
      QueueFacts(s, sem);
      NoneFirst(s, sem);
      pid := GetFirst(semtab[sem].queue);
      if pid == EMPTY {
        return EMPTY;
      }
      ReleaseInv(s, sem);
      WokenFacts(Now(), pid, sem, 0);
      var x := Ready(pid);
    }

    /** semreset. */
    method SemReset(sem: int, count: int) returns (r: int)
      requires Linked() && Inv(Now())
      modifies this`lists, this`currpid, this`attempt, this`ndefers, queuetab, proctab, semtab
      ensures Linked()
      ensures r == if old(BadSem(sem)) || count < 0 then SYSERR else OK
      ensures Now() == if old(BadSem(sem)) || count < 0 then old(Now()) else ResetTo(old(Now()), sem, count)
    {
      hide Mid, Core, LooseBut, Sound, Threaded, Released, Stop, Inv, SchedOK, ReleaseAll, Start;
      InvFacts(Now());
      if count < 0 || BadSem(sem) {
        return SYSERR;
      }
      ghost var s := Now();
      ResetStart(s, sem);
      DeferStart();
      assert Now() == Start(s);
      while true
        invariant Linked() && Mid(Now(), EMPTY, sem, 0) && Core(Now())
        invariant ReleaseAll(Now(), sem) == ReleaseAll(Start(s), sem)
        decreases QueueLength(Now(), sem)
      {
        ghost var s1 := Now();
        ReleaseStep(s1, sem);
        var pid := ReleaseFirst(sem);
        if pid == EMPTY {
          break;
        }
      }
      ghost var s2 := Now();
      MidFacts(s2, EMPTY, sem);
      ReleaseStep(s2, sem);
      semtab[sem] := semtab[sem].(count := count);
      assert Now() == SetCount(s2, sem, count);
      SetCountInv(s2, sem, s2.sems[sem].(count := count));
      var x := DeferStop();
      return OK;
    }

    /** semdelete. */
    method SemDelete(sem: int) returns (r: int)
      requires Linked() && Inv(Now())
      modifies this`lists, this`currpid, this`attempt, this`ndefers, queuetab, proctab, semtab
      ensures Linked()
      ensures r == if old(BadSem(sem)) then SYSERR else OK
      ensures Now() == if old(BadSem(sem)) then old(Now()) else Deleted(old(Now()), sem)
    {
      hide Mid, Core, LooseBut, Sound, Threaded, Released, Stop, Inv, SchedOK, DeleteLoop, Balanced, Start;
      InvFacts(Now());
      if BadSem(sem) {
        return SYSERR;
      }
      ghost var s := Now();
      DeleteStart(s, sem);
      semtab[sem] := semtab[sem].(used := false);
      ghost var s0 := Now();
      assert s0 == s.(sems := s.sems[sem := s.sems[sem].(used := false)]);
      DeferStart();
      while true
        invariant Linked() && DeleteReady(Now(), sem)
        invariant DeleteLoop(Now(), sem) == DeleteLoop(Start(s0), sem)
        decreases QueueLength(Now(), sem)
      {
        ghost var s1 := Now();
        DeleteStep(s1, sem);
        var c := semtab[sem].count;
        semtab[sem] := semtab[sem].(count := c + 1);
        assert Now() == SetCount(s1, sem, c + 1);
        if c >= 0 {
          break;
        }
        var pid := ReleaseFirst(sem);
      }
      var x := DeferStop();
      return OK;
    }

    /** newsem: a free entry, searched for round the table. */
    method NewSem() returns (r: int)
      requires semtab.Length == NSEM && 0 <= nextsem < NSEM
      modifies this`nextsem, semtab
      ensures (r, nextsem) == FindSem(old(semtab[..]), old(nextsem), NSEM)
      ensures semtab[..] == if r == -1 then old(semtab[..]) else old(semtab[..])[r := old(semtab[..])[r].(used := true)]
    {
      var i := 0;
      while i < NSEM
        invariant 0 <= i <= NSEM && 0 <= nextsem < NSEM && semtab[..] == old(semtab[..])
        invariant FindSem(semtab[..], nextsem, NSEM - i) == FindSem(old(semtab[..]), old(nextsem), NSEM)
      {
        var sem := nextsem;
        nextsem := nextsem + 1;
        if nextsem >= NSEM {
          nextsem := 0;
        }
        if !semtab[sem].used {
          semtab[sem] := semtab[sem].(used := true);
          return sem;
        }
        i := i + 1;
      }
      return -1;
    }

    /** semcreate. */
    method SemCreate(count: int) returns (r: int)
      requires Linked() && Inv(Now())
      modifies this`nextsem, semtab
      ensures Linked()
      ensures Now() == if count < 0 then old(Now()) else SemCreated(old(Now()), count)
      ensures r == if count < 0 then SYSERR else FindSem(old(semtab[..]), old(nextsem), NSEM).0
    {
      hide Inv, Mid, Threaded, FindSem;
      InvFacts(Now());
      LooseFacts(Now(), EMPTY);
      if count < 0 {
        return SYSERR;
      }
      r := NewSem();
      if r == SYSERR {
        return SYSERR;
      }
      semtab[r] := semtab[r].(count := count);
    }

    // ---- sleeping --------------------------------------------------------------------------------

    /** yield. */
    method Yield() returns (r: int)
      requires Linked() && Inv(Now())
      modifies this`lists, this`currpid, this`attempt, queuetab, proctab
      ensures Linked() && r == OK && CanRun(old(Now())) && Now() == Sched.Resched(old(Now()))
    {
      hide Inv, Mid, Threaded, LooseBut;
      InvFacts(Now());
      Resched();
      return OK;
    }

    /** The current process goes on the sleep queue in state st, as in sleepms and recvtime. */
    method Delay(delay: int, st: PState, ghost pl: Place)
      requires Linked() && Inv(Now()) && 0 <= delay <= MAXKEY && currpid != NULLPROC && ndefers == 0
      requires (st == PState.Sleep && pl == Outside) || (st == RecTim && pl == InRecvTime && !proctab[currpid].hasmsg)
      modifies this`lists, this`currpid, this`attempt, this`at, queuetab, proctab
      ensures Linked()
      ensures var t := Sleeping(old(Now()), delay, st, pl); LooseBut(t, EMPTY) && CanRun(t) && Now() == Sched.Resched(t)
    {
      hide Inv, Mid, Threaded, Sound, LooseBut, InsertedD, Sched.Resched;
      ghost var s := Now();
      InvFacts(s);
      LooseFacts(s, EMPTY);
      CurrFacts(s);
      SleepingMid(s, delay, st, pl);
      MidFacts(Sleeping(s, delay, st, pl), EMPTY, EMPTY);
      var r := InsertD(currpid, sleepq, delay);
      proctab[currpid] := proctab[currpid].(state := st);
      at := at[currpid := pl];
      assert Now() == Sleeping(s, delay, st, pl);
      Resched();
    }

    /** sleepms. */
    method SleepMs(delay: int) returns (r: int)
      requires Linked() && Inv(Now()) && 0 <= delay <= MAXKEY && at[currpid] == Outside
      requires delay > 0 ==> currpid != NULLPROC && ndefers == 0
      modifies this`lists, this`currpid, this`attempt, this`at, queuetab, proctab
      ensures Linked() && r == OK && Now() == Slept(old(Now()), delay)
    {
      hide Inv, Mid, Threaded, Sound, LooseBut, Sleeping, Sched.Resched;
      if delay == 0 {
        r := Yield();
        return OK;
      }
      Delay(delay, PState.Sleep, Outside);
      return OK;
    }

    /** The loop and deferral of wakeup: all whose time is up become ready. */
    method Wakeup()
      requires Linked() && (Mid(Now(), EMPTY, EMPTY, 0) || Mid(Now(), EMPTY, EMPTY, -1)) && Core(Now())
      modifies this`lists, this`currpid, this`attempt, this`ndefers, queuetab, proctab
      ensures Linked() && Now() == Wakened(old(Now()))
    {
      hide Mid, Core, LooseBut, Sound, Threaded, Stop, SchedOK, Start, WakeLoop;
      ghost var s := Now();
      WakeStart(s);
      DeferStart();
      assert Now() == Start(s);
      while true
        invariant Linked() && WakeReady(Now()) && WakeLoop(Now()) == WakeLoop(Start(s))
        decreases SleepLength(Now())
      {
        ghost var s1 := Now();
        WakeStep(s1);
        SleepFacts(s1);
        FirstNode(queuetab[..], lists, sleepq);
        NodeKey(queuetab[..], lists, sleepq, 0);
        if queuetab[sleepq].qnext >= NPROC {
          break;
        }
        if queuetab[queuetab[sleepq].qnext].qkey > 0 {
          break;
        }
        WakeFirst(sleepq);
      }
      var x := DeferStop();
    }

    /** ready(dequeue(sleepq)). */
    method WakeFirst(q: int)
      requires Linked() && WakeReady(Now()) && q == sleepq && SleepLength(Now()) > 0
      requires lists.key[First(Now(), sleepq)] <= 0
      modifies this`lists, this`currpid, this`attempt, queuetab, proctab
      ensures Linked() && LooseBut(Popped(old(Now()), sleepq), First(old(Now()), sleepq))
      ensures Waken(old(Now())) && Now() == Readied(Popped(old(Now()), sleepq), First(old(Now()), sleepq))
    {
      hide Mid, Core, LooseBut, Sound, Threaded, Readied, Popped;
      ghost var s := Now();
      SleepFacts(s);
      WakenIs(s);
      var pid := Dequeue(q);
      WokenFacts(Now(), pid, EMPTY, 0);
      var x := Ready(pid);
    }

    /** The clock interrupt. */
    method ClockTick()
      requires Linked() && Inv(Now())
      modifies this`lists, this`currpid, this`attempt, this`ndefers, queuetab, proctab
      ensures Linked() && Now() == Ticked(old(Now()))
    {
      hide Inv, Mid, Core, LooseBut, Sound, Threaded, Wakened, SchedOK, Sched.Resched;
      ghost var s := Now();
      TickFacts(s);
      FirstNode(queuetab[..], lists, sleepq);
      NodeKey(queuetab[..], lists, sleepq, 0);
      if queuetab[sleepq].qnext < NPROC {
        var first := queuetab[sleepq].qnext;
        AddToKey(first, -1);
        assert Now() == Ticked1(s);
        KeyIs(queuetab[..], lists, first);
        if queuetab[first].qkey <= 0 {
          Wakeup();
          return;
        }
      }
      Resched();
    }

    // ---- messages ----------------------------------------------------------------------------------

    /** The end of receive: the current process takes its message. */
    method FinishReceive() returns (r: int)
      requires Linked() && Inv(Now()) && (at[currpid] == InReceive || proctab[currpid].hasmsg)
      modifies this`at, proctab
      ensures Linked() && Now() == TookMessage(old(Now()))
      ensures old(proctab[currpid].hasmsg) && r == old(proctab[currpid].msg)
    {
      hide Mid, Threaded, Sound, LooseBut;
      InvFacts(Now());
      MessageThere(Now());
      r := proctab[currpid].msg;
      proctab[currpid] := proctab[currpid].(hasmsg := false);
      at := at[currpid := Outside];
    }

    /** receive: with no message there the process waits, and finishes when it runs again. */
    method Receive() returns (blocked: bool, r: int)
      requires Linked() && Inv(Now()) && at[currpid] == Outside
      requires !proctab[currpid].hasmsg ==> currpid != NULLPROC && ndefers == 0
      modifies this`lists, this`currpid, this`attempt, this`at, queuetab, proctab
      ensures Linked() && (blocked <==> !old(proctab[currpid].hasmsg))
      ensures !blocked ==> r == old(proctab[currpid].msg)
      ensures Now() == if blocked then AwaitsMessage(old(Now())) else TookMessage(old(Now()))
    {
      hide Inv, Mid, Threaded, Sound, LooseBut, Sched.Resched;
      ghost var s := Now();
      InvFacts(s);
      if !proctab[currpid].hasmsg {
        BecameMid(s, s.procs[s.curr].(state := Recv), InReceive);
        MidFacts(Became(s, s.procs[s.curr].(state := Recv), InReceive), EMPTY, EMPTY);
        proctab[currpid] := proctab[currpid].(state := Recv);
        at := at[currpid := InReceive];
        assert Now() == Became(s, s.procs[s.curr].(state := Recv), InReceive);
        Resched();
        return true, 0;
      }
      r := FinishReceive();
      return false, r;
    }

    /** The end of recvtime: a message has arrived, or the time is up. */
    method FinishRecvTime() returns (r: int)
      requires Linked() && Inv(Now())
      modifies this`at, proctab
      ensures Linked() && Now() == TookMessage(old(Now()))
      ensures r == if old(proctab[currpid].hasmsg) then old(proctab[currpid].msg) else TIMEOUT
    {
      hide Inv, Mid, Threaded, Sound, LooseBut;
      InvFacts(Now());
      if proctab[currpid].hasmsg {
        r := proctab[currpid].msg;
        proctab[currpid] := proctab[currpid].(hasmsg := false);
      } else {
        r := TIMEOUT;
        assert proctab[..] == proctab[..][currpid := proctab[currpid].(hasmsg := false)];
      }
      at := at[currpid := Outside];
    }

    /** recvtime: like receive, but the process also goes on the sleep queue. */
    method RecvTime(maxwait: int) returns (blocked: bool, r: int)
      requires Linked() && Inv(Now()) && maxwait <= MAXKEY && at[currpid] == Outside
      requires maxwait >= 0 && !proctab[currpid].hasmsg ==> currpid != NULLPROC && ndefers == 0
      modifies this`lists, this`currpid, this`attempt, this`at, queuetab, proctab
      ensures Linked() && (blocked <==> maxwait >= 0 && !old(proctab[currpid].hasmsg))
      ensures !blocked ==> r == if maxwait < 0 then SYSERR else old(proctab[currpid].msg)
      ensures Now() == if maxwait < 0 then old(Now()) else if blocked then AwaitsInTime(old(Now()), maxwait)
              else TookMessage(old(Now()))
    {
      hide Inv, Mid, Threaded, Sound, LooseBut, Sched.Resched, Sleeping;
      InvFacts(Now());
      if maxwait < 0 {
        return false, SYSERR;
      }
      if !proctab[currpid].hasmsg {
        Delay(maxwait, RecTim, InRecvTime);
        return true, 0;
      }
      r := FinishRecvTime();
      return false, r;
    }

    /** recvclr. */
    method RecvClr() returns (r: int)
      requires Linked() && Inv(Now()) && at[currpid] == Outside
      modifies this`at, proctab
      ensures Linked() && Now() == if old(proctab[currpid].hasmsg) then TookMessage(old(Now())) else old(Now())
      ensures r == if old(proctab[currpid].hasmsg) then old(proctab[currpid].msg) else OK
    {
      hide Inv, Mid, Threaded, Sound, LooseBut;
      InvFacts(Now());
      if proctab[currpid].hasmsg {
        r := proctab[currpid].msg;
        proctab[currpid] := proctab[currpid].(hasmsg := false);
        at := at[currpid := Outside];
      } else {
        r := OK;
      }
    }

    /** send: refused for a bad process and for one that has not taken its last message. */
    method Send(pid: int, msg: int) returns (r: int)
      requires Linked() && Inv(Now())
      modifies this`lists, this`currpid, this`attempt, queuetab, proctab
      ensures Linked()
      ensures r == if old(BadPidNow(pid)) || old(proctab[pid].hasmsg) then SYSERR else OK
      ensures Now() == if r == SYSERR then old(Now()) else Sent(old(Now()), pid, msg)
    {
      hide Inv, Mid, Threaded, Sound, LooseBut, Readied, Unslept;
      ghost var s := Now();
      InvFacts(s);
      if BadPidNow(pid) {
        return SYSERR;
      }
      if proctab[pid].hasmsg {
        return SYSERR;
      }
      SentInv(s, pid, msg);
      proctab[pid] := proctab[pid].(msg := msg);
      proctab[pid] := proctab[pid].(hasmsg := true);
      ghost var s1 := Now();
      assert s1 == SetProc(s, pid, s.procs[pid].(msg := msg, hasmsg := true));
      if proctab[pid].state == Recv {
        WokenFacts(s1, pid, EMPTY, 0);
        var x := Ready(pid);
      } else if proctab[pid].state == RecTim {
        SleeperHome(s, pid);
        var x := Unsleep(pid);
        WokenFacts(Now(), pid, EMPTY, 0);
        x := Ready(pid);
      }
      return OK;
    }

    // ---- processes ------------------------------------------------------------------------------------

    /** suspend: only the current process or a ready one; returns its priority. */
    method Suspend(pid: int) returns (r: int)
      requires Linked() && Inv(Now()) && (pid == currpid ==> ndefers == 0 && at[pid] == Outside)
      modifies this`lists, this`currpid, this`attempt, this`at, queuetab, proctab
      ensures Linked()
      ensures var bad := old(BadPidNow(pid)) || pid == NULLPROC || old(proctab[pid].state) !in {Curr, PState.Ready};
              && r == (if bad then SYSERR else old(proctab[pid].prio))
              && Now() == if bad then old(Now()) else Suspended(old(Now()), pid)
    {
      hide Inv, Mid, Threaded, Sound, LooseBut, Unlinked, Sched.Resched;
      ghost var s := Now();
      InvFacts(s);
      if BadPidNow(pid) || pid == NULLPROC {
        return SYSERR;
      }
      if proctab[pid].state != Curr && proctab[pid].state != PState.Ready {
        return SYSERR;
      }
      var prio := proctab[pid].prio;
      if proctab[pid].state == PState.Ready {
        TakeReady(pid, Susp);
      } else {
        CurrIs(s, pid);
        Retire(Susp);
      }
      return prio;
    }

    /** A ready process leaves the ready list for state st. */
    method TakeReady(pid: int, st: PState)
      requires Linked() && Inv(Now()) && 0 < pid < NPROC && proctab[pid].state == PState.Ready && st in {Free, Susp}
      modifies this`lists, queuetab, proctab
      ensures Linked() && Now() == Unreadied(old(Now()), pid, st)
    {
      hide Inv, Mid, Threaded, LooseBut, Unlinked;
      ghost var s := Now();
      InvFacts(s);
      LooseFacts(s, EMPTY);
      UnreadyMid(s, pid, st);
      var x := GetItem(pid);
      proctab[pid] := proctab[pid].(state := st);
      assert Now() == SetState(Unlinked(s, pid), pid, st);
    }

    /** The current process gives up the processor in state st. */
    method Retire(st: PState)
      requires Linked() && Inv(Now()) && currpid != NULLPROC && ndefers == 0 && st in {Free, Susp}
      requires st == Susp ==> at[currpid] == Outside
      modifies this`lists, this`currpid, this`attempt, this`at, queuetab, proctab
      ensures Linked() && Now() == Retired(old(Now()), st)
    {
      hide Inv, Mid, Threaded, Sound, LooseBut, Sched.Resched;
      ghost var s := Now();
      InvFacts(s);
      ghost var pr := s.procs[s.curr].(state := st);
      BecameMid(s, pr, Outside);
      MidFacts(Became(s, pr, Outside), EMPTY, EMPTY);
      proctab[currpid] := proctab[currpid].(state := st);
      at := at[currpid := Outside];
      assert Now() == Became(s, pr, Outside);
      Resched();
    }

    /** resume: only a suspended process; returns its priority. */
    method Resume(pid: int) returns (r: int)
      requires Linked() && Inv(Now())
      modifies this`lists, this`currpid, this`attempt, queuetab, proctab
      ensures Linked()
      ensures var bad := old(BadPidNow(pid)) || old(proctab[pid].state) != Susp;
              && r == (if bad then SYSERR else old(proctab[pid].prio))
              && Now() == if bad then old(Now()) else Resumed(old(Now()), pid)
    {
      hide Inv, Mid, Threaded, Sound, LooseBut, Readied;
      ghost var s := Now();
      InvFacts(s);
      if BadPidNow(pid) {
        return SYSERR;
      }
      if proctab[pid].state != Susp {
        return SYSERR;
      }
      var prio := proctab[pid].prio;
      ResumeMid(s, pid);
      WokenFacts(s, pid, EMPTY, 0);
      var x := Ready(pid);
      return prio;
    }

    /** The first half of kill: the checks, and the message to the parent, which may preempt. */
    method KillNotify(pid: int) returns (r: int)
      requires Linked() && Inv(Now())
      modifies this`lists, this`currpid, this`attempt, queuetab, proctab
      ensures Linked() && r == if old(BadPidNow(pid)) || pid == NULLPROC then SYSERR else OK
      ensures Now() == if r == SYSERR then old(Now()) else Notified(old(Now()), pid)
    {
      hide Inv, Mid, Threaded, Sound, LooseBut, Sent;
      InvFacts(Now());
      if BadPidNow(pid) || pid == NULLPROC {
        return SYSERR;
      }
      var x := Send(proctab[pid].parent, pid);
      return OK;
    }

    /** The second half of kill: the process leaves whatever its state says it is on. */
    method KillRemove(pid: int)
      requires Linked() && Inv(Now()) && 0 < pid < NPROC && (pid == currpid ==> ndefers == 0)
      modifies this`lists, this`currpid, this`attempt, this`at, queuetab, proctab, semtab
      ensures Linked() && Now() == Removed(old(Now()), pid)
    {
      hide Inv, Mid, Threaded, LooseBut, Unlinked, Unslept, Sched.Resched;
      ghost var s := Now();
      InvFacts(s);
      LooseFacts(s, EMPTY);
      match proctab[pid].state {
        case Curr =>
          CurrIs(s, pid);
          Retire(Free);
        case Sleep =>
          TakeSleeper(pid);
        case RecTim =>
          TakeSleeper(pid);
        case Wait =>
          TakeWaiter(pid);
        case Ready =>
          TakeReady(pid, Free);
        case _ =>
          ClearMid(s, pid, s.procs[pid].(state := Free));
          proctab[pid] := proctab[pid].(state := Free);
          at := at[pid := Outside];
      }
    }

    /** unsleep, then free the entry. */
    method TakeSleeper(pid: int)
      requires Linked() && Inv(Now()) && 0 < pid < NPROC && proctab[pid].state in {PState.Sleep, RecTim}
      modifies this`lists, queuetab, proctab
      ensures Linked() && Now() == Unslumbered(old(Now()), pid)
    {
      hide Inv, Mid, Threaded, LooseBut, Unslept;
      ghost var s := Now();
      InvFacts(s);
      LooseFacts(s, EMPTY);
      UnslumberMid(s, pid);
      var x := Unsleep(pid);
      proctab[pid] := proctab[pid].(state := Free);
      assert Now() == SetState(Unslept(s, pid), pid, Free);
    }

    /** The count goes up, the process leaves the semaphore's queue, its entry is free. */
    method TakeWaiter(pid: int)
      requires Linked() && Inv(Now()) && 0 < pid < NPROC && proctab[pid].state == PState.Wait
      modifies this`lists, queuetab, proctab, semtab
      ensures Linked() && Now() == Unwaited(old(Now()), pid)
    {
      hide Inv, Mid, Threaded, LooseBut, Unlinked;
      ghost var s := Now();
      InvFacts(s);
      LooseFacts(s, EMPTY);
      UnwaitMid(s, pid);
      var sem := proctab[pid].sem;
      semtab[sem] := semtab[sem].(count := semtab[sem].count + 1);
      ghost var s1 := Now();
      assert s1 == SetCount(s, sem, s.sems[sem].count + 1);
      var x := GetItem(pid);
      proctab[pid] := proctab[pid].(state := Free);
      assert Now() == SetState(Unlinked(s1, pid), pid, Free);
    }

    /** newpid: a free entry, searched for round the table. */
    method NewPid() returns (r: int)
      requires proctab.Length == NPROC && 0 <= nextpid <= NPROC
      modifies this`nextpid
      ensures (r, nextpid) == FindPid(proctab[..], old(nextpid), NPROC)
    {
      var i := 0;
      while i < NPROC
        invariant 0 <= i <= NPROC && 0 <= nextpid <= NPROC
        invariant FindPid(proctab[..], nextpid, NPROC - i) == FindPid(proctab[..], old(nextpid), NPROC)
      {
        nextpid := nextpid % NPROC;
        if proctab[nextpid].state == Free {
          nextpid := nextpid + 1;
          return nextpid - 1;
        } else {
          nextpid := nextpid + 1;
        }
        i := i + 1;
      }
      return SYSERR;
    }

    /** create, given whether getstk found a stack: the new process is suspended. */
    method Create(gotStack: bool, priority: int) returns (r: int)
      requires Linked() && Inv(Now()) && priority < 0x8000
      modifies this`nextpid, this`at, proctab
      ensures Linked() && Now() == if gotStack then Created(old(Now()), priority) else old(Now())
      ensures r == if !gotStack || priority < 1 then SYSERR else FindPid(old(proctab[..]), old(nextpid), NPROC).0
    {
      hide Inv, Mid, Threaded, LooseBut, Sound, FindPid;
      ghost var s := Now();
      InvFacts(s);
      LooseFacts(s, EMPTY);
      if !gotStack {
        return SYSERR;
      }
      var pid := NewPid();
      if pid == SYSERR || priority < 1 {
        return SYSERR;
      }
      proctab[pid] := Proc(Susp, priority, -1, currpid, proctab[pid].msg, false);
      at := at[pid := Outside];
      return pid;
    }

    // ---- start-up -----------------------------------------------------------------------------------

    /** newqueue: head and tail of an empty list.  The guard admits one index too many: outside says
        that head and tail were written behind the table. */
    method NewQueue() returns (q: int, outside: bool)
      requires Linked() && NPROC <= nextqid <= NQENT + 2 && nextqid % 2 == NPROC % 2 && nextqid !in lists.on
      modifies this`lists, this`nextqid, queuetab
      ensures Linked() && q == (if old(nextqid) > NQENT then SYSERR else old(nextqid))
      ensures nextqid == (if q == SYSERR then old(nextqid) else q + 2) && (outside <==> q == NQENT)
      ensures lists == if q == SYSERR || outside then old(lists) else old(lists).(on := old(lists).on[q := []])
    {
      hide Shape, Chained;
      q := nextqid;
      if q > NQENT {
        return SYSERR, false;
      }
      nextqid := nextqid + 2;
      if q + 1 >= NQENT {
        return q, true;
      }
      ghost var t := queuetab[..];
      NewThreaded(t, lists, q);
      queuetab[q] := queuetab[q].(qnext := q + 1);
      queuetab[q] := queuetab[q].(qprev := EMPTY);
      queuetab[q] := queuetab[q].(qkey := MAXKEY);
      queuetab[q + 1] := queuetab[q + 1].(qnext := EMPTY);
      queuetab[q + 1] := queuetab[q + 1].(qprev := q);
      queuetab[q + 1] := queuetab[q + 1].(qkey := MINKEY);
      assert queuetab[..] == Fresh(t, q);
      lists := lists.(on := lists.on[q := []]);
      outside := false;
    }

    /** The static tables, before anything has run. */
    constructor ()
      ensures Linked() && Static() && fresh(queuetab) && fresh(proctab) && fresh(semtab)
    {
      queuetab := new QEntry[NQENT](i => QEntry(0, 0, 0));
      proctab := new Proc[NPROC](i => Proc(Free, 0, 0, 0, 0, false));
      semtab := new Sem[NSEM](i => Sem(false, 0, 0));
      lists := Lists(map[], seq(NPROC, i => EMPTY), seq(NPROC, i => 0));
      at := seq(NPROC, i => Outside);
      ndefers, attempt, nextpid, nextsem, nextqid := 0, false, 1, 0, NPROC;
      new;
      NoLists(queuetab[..], lists);
    }

    ghost predicate Static()
      reads this, proctab, semtab
    {
      && proctab.Length == NPROC && semtab.Length == NSEM && |at| == NPROC && |lists.home| == NPROC
         && |lists.key| == NPROC
      && SemQueues(lists.on, 0) && nextqid == NPROC && ndefers == 0 && !attempt && nextpid == 1 && nextsem == 0
      && (forall p :: 0 <= p < NPROC ==> at[p] == Outside && lists.home[p] == EMPTY && !proctab[p].hasmsg)
    }

    /** sysinit: the process table, the null process, a queue for every semaphore, the ready list
        and the sleep queue. */
    method SysInit()
      requires Linked() && Static()
      modifies this, queuetab, proctab, semtab
      ensures Linked() && Initial(Now())
    {
      hide Threaded, Shape, Chained;
      ClearProcs();
      proctab[NULLPROC] := proctab[NULLPROC].(state := Curr);
      proctab[NULLPROC] := proctab[NULLPROC].(prio := 0);
      currpid := NULLPROC;
      MakeSemaphores();
      MakeLists();
    }

    /** The ready list and the sleep queue. */
    method MakeLists()
      requires Linked() && nextqid == NPROC + 2 * NSEM && SemQueues(lists.on, NSEM)
      modifies this`lists, this`nextqid, this`readylist, this`sleepq, queuetab
      ensures Linked() && SemQueues(lists.on, NSEM + 2) && lists.home == old(lists.home) && lists.key == old(lists.key)
      ensures readylist == NPROC + 2 * NSEM && sleepq == NPROC + 2 * NSEM + 2
    {
      hide Threaded;
      var outside;
      readylist, outside := NewQueue();
      sleepq, outside := NewQueue();
    }

    method ClearProcs()
      requires proctab.Length == NPROC
      modifies proctab
      ensures forall p :: 0 <= p < NPROC ==>
                proctab[p].state == Free && proctab[p].prio == 0 && proctab[p].hasmsg == old(proctab[p].hasmsg)
    {
      var i := 0;
      while i < NPROC
        invariant 0 <= i <= NPROC && forall p :: 0 <= p < i ==> proctab[p].state == Free && proctab[p].prio == 0
        invariant forall p :: 0 <= p < NPROC ==> proctab[p].hasmsg == old(proctab[p].hasmsg)
      {
        proctab[i] := proctab[i].(state := Free);
        proctab[i] := proctab[i].(prio := 0);
        i := i + 1;
      }
    }

    method MakeSemaphores()
      requires Linked() && nextqid == NPROC && SemQueues(lists.on, 0) && semtab.Length == NSEM
      modifies this`lists, this`nextqid, queuetab, semtab
      ensures Linked() && nextqid == NPROC + 2 * NSEM && SemQueues(lists.on, NSEM) && lists.home == old(lists.home)
              && lists.key == old(lists.key)
      ensures forall k :: 0 <= k < NSEM ==> semtab[k] == Sem(false, 0, NPROC + 2 * k)
    {
      hide Threaded;
      var i := 0;
      while i < NSEM
        invariant 0 <= i <= NSEM && Linked() && nextqid == NPROC + 2 * i && SemQueues(lists.on, i)
        invariant lists.home == old(lists.home) && lists.key == old(lists.key)
        invariant forall k :: 0 <= k < i ==> semtab[k] == Sem(false, 0, NPROC + 2 * k)
      {
        semtab[i] := semtab[i].(used := false);
        semtab[i] := semtab[i].(count := 0);
        var q, outside := NewQueue();
        semtab[i] := semtab[i].(queue := q);
        i := i + 1;
      }
    }
  }

  lemma KeyIs(t: seq<QEntry>, s: Lists, p: int)
    requires Threaded(t, s) && 0 <= p < NPROC
    ensures |t| == NQENT && |s.key| == NPROC && t[p].qkey == s.key[p] && s.key[p := t[p].qkey] == s.key
  {
    ShapeSizes(s);
  }

  lemma FirstNode(t: seq<QEntry>, s: Lists, q: int)
    requires Threaded(t, s) && q in s.on
    ensures IsHead(q) && q + 1 < |t| == NQENT && t[q].qnext == Node(q, s.on[q], 1)
    ensures t[q].qnext >= NPROC <==> s.on[q] == []
  {
    LinkAt(t, s, q, 0);
    EndKeys(t, s, q);
    ListNoDup(s, q);
    if s.on[q] != [] {
      HomeOfIndex(s, q, 0);
    }
  }

  lemma LastNode(t: seq<QEntry>, s: Lists, q: int)
    requires Threaded(t, s) && q in s.on
    ensures IsHead(q) && q + 1 < |t| == NQENT && t[q + 1].qprev == Node(q, s.on[q], |s.on[q]|)
  {
    LinkAt(t, s, q, |s.on[q]|);
    EndKeys(t, s, q);
    ListNoDup(s, q);
  }

  lemma NodeKey(t: seq<QEntry>, s: Lists, q: int, i: int)
    requires Threaded(t, s) && q in s.on && 0 <= i <= |s.on[q]|
    ensures 0 <= Node(q, s.on[q], i + 1) < |t| && (i < |s.on[q]| ==> 0 <= s.on[q][i] < |s.key|)
    ensures t[Node(q, s.on[q], i + 1)].qkey == if i < |s.on[q]| then s.key[s.on[q][i]] else MINKEY
  {
    EndKeys(t, s, q);
    if i < |s.on[q]| {
      HomeOfIndex(s, q, i);
    }
  }

  lemma FirstHome(s: Sys, q: int)
    requires Sound(s) && q in s.lists.on && s.lists.on[q] != []
    ensures |s.lists.home| == NPROC && |s.procs| == NPROC
    ensures 0 <= s.lists.on[q][0] < NPROC && s.lists.home[s.lists.on[q][0]] == q && q != EMPTY
    ensures IndexOf(s.lists.on[q], s.lists.on[q][0]) == 0
  {
    HomeOfIndex(s.lists, q, 0);
    HeadNotEmpty(q);
  }

  lemma PoppedHome(s: Sys, q: int)
    requires Sound(s) && q in s.lists.on && s.lists.on[q] != []
    ensures 0 <= s.lists.on[q][0] < |s.lists.home| && Popped(s, q).lists.home[s.lists.on[q][0]] == EMPTY
  {
    HomeOfIndex(s.lists, q, 0);
  }

  lemma TailNode(s: Sys, q: int, i: int)
    requires Sound(s) && q in s.lists.on && 0 <= i <= |s.lists.on[q]|
    ensures IsHead(q) && q + 1 < NQENT
    ensures Node(q, s.lists.on[q], i + 1) == q + 1 <==> i == |s.lists.on[q]|
    ensures i < |s.lists.on[q]| ==> Node(q, s.lists.on[q], i + 1) == s.lists.on[q][i] && 0 <= s.lists.on[q][i] < NPROC
    ensures |s.lists.key| == NPROC
  {
    ListNoDup(s.lists, q);
    ShapeSizes(s.lists);
    if i < |s.lists.on[q]| {
      HomeOfIndex(s.lists, q, i);
    }
  }

  lemma FollowerIs(s: Sys, q: int, i: int)
    requires Sound(s) && q in s.lists.on && 0 <= i < |s.lists.on[q]|
    ensures Node(q, s.lists.on[q], i + 2) == if i + 1 < |s.lists.on[q]| then s.lists.on[q][i + 1] else q + 1
    ensures i + 1 < |s.lists.on[q]| ==> 0 <= s.lists.on[q][i + 1] < NPROC
    ensures q + 1 > NPROC
  {
    ListNoDup(s.lists, q);
    if i + 1 < |s.lists.on[q]| {
      HomeOfIndex(s.lists, q, i + 1);
    }
  }

  lemma LooseFacts(s: Sys, e: int)
    requires LooseBut(s, e)
    ensures Sound(s) && |s.procs| == NPROC && |s.at| == NPROC && |s.sems| == NSEM && 0 <= s.curr < NPROC
    ensures s.readylist in s.lists.on && s.sleepq in s.lists.on && !BadQid(s.readylist) && !BadQid(s.sleepq)
    ensures |s.lists.home| == NPROC && |s.lists.key| == NPROC && 0 <= s.nextpid <= NPROC && 0 <= s.nextsem < NSEM
            && s.ndefers >= 0
  {
  }

  lemma CurrFacts(s: Sys)
    requires LooseBut(s, EMPTY) && s.procs[s.curr].state == Curr
    ensures s.lists.home[s.curr] == EMPTY && s.procs[s.curr].prio >= 0
  {
    assert HomeOK(s, s.curr);
  }

  lemma StateSound(s: Sys, p: int, st: PState)
    requires Sound(s) && 0 <= p < NPROC
    ensures Sound(SetState(s, p, st))
  {
    hide Shape;
  }

  lemma DispatchFacts(s: Sys)
    requires Sound(s) && ReadyList(s) != []
    ensures s.readylist in s.lists.on && !BadQid(s.readylist) && 0 <= ReadyList(s)[0] < NPROC && |s.procs| == NPROC
  {
    HomeOfIndex(s.lists, s.readylist, 0);
  }

  lemma HomeNone(s: Sys, p: int)
    requires LooseBut(s, p) && 0 <= p < NPROC
    ensures s.lists.home[p] == EMPTY
  {
  }

  lemma PrioFacts(s: Sys, e: int, p: int)
    requires LooseBut(s, e) && 0 <= p < NPROC && s.procs[p].state != Free
    ensures 0 <= s.procs[p].prio < 0x8000
  {
  }

  lemma SameCurr(s: Sys, p: int)
    requires LooseBut(s, p) && 0 <= p < NPROC && p != s.curr && s.procs[s.curr].state == Curr
    ensures MakeReady(s, p).curr == s.curr && MakeReady(s, p).procs[s.curr].state == Curr
  {
  }

  lemma InvFacts(s: Sys)
    requires Inv(s)
    ensures Mid(s, EMPTY, EMPTY, 0) && Core(s) && LooseBut(s, EMPTY) && SchedOK(s)
    ensures |s.procs| == NPROC && |s.at| == NPROC && |s.sems| == NSEM && 0 <= s.curr < NPROC && |s.lists.home| == NPROC
  {
  }

  lemma QueueFacts(s: Sys, i: int)
    requires Sound(s) && 0 <= i < NSEM
    ensures s.sems[i].queue in s.lists.on && !BadQid(s.sems[i].queue)
  {
  }

  lemma WokenFacts(s: Sys, p: int, i: int, low: int)
    requires Woken(s, p, i, low)
    ensures LooseBut(s, p) && Sound(s) && 0 <= p < |s.procs| && s.procs[p].state != Free
            && s.procs[s.curr].state == Curr && p != s.curr
  {
  }

  /** The current process can be put on the queue of a semaphore whose count has gone below zero. */
  lemma WaitingLoose(s: Sys, i: int)
    requires Inv(s) && 0 <= i < NSEM && s.sems[i].used && s.sems[i].count <= 0 && s.curr != NULLPROC && s.ndefers == 0
    ensures var s1 := SetCount(s, i, s.sems[i].count - 1);
            && Sound(s1) && LooseBut(Waiting(s1, i), EMPTY) && Waiting(s1, i).ndefers == 0
            && |s.lists.home| == NPROC && s.lists.home[s.curr] == EMPTY
  {
    hide Shape, NoDup, PrioOK, OneCurr, ReadyOK, Descending, CountOK, MsgOK, Waiting, PutAt;
    var s1 := SetCount(s, i, s.sems[i].count - 1);
    CurrFacts(s);
    ShapeSizes(s.lists);
    OpenSem(s, EMPTY, i, 0);
    SemMid(s, EMPTY, i, 0, s.sems[i].(count := s.sems[i].count - 1));
    WaitingMid(s1, i, 0);
    WaitingFields(s1, i);
  }

  lemma MidFacts(s: Sys, p: int, i: int)
    requires Mid(s, p, i, 0)
    ensures LooseBut(s, p) && Sound(s) && |s.sems| == NSEM
  {
  }

  lemma NoneFirst(s: Sys, i: int)
    requires Sound(s) && 0 <= i < NSEM
    ensures var q := s.sems[i].queue;
            q in s.lists.on && (s.lists.on[q] != [] ==> s.lists.on[q][0] != EMPTY && Popped(s, q).lists != s.lists)
  {
    var q := s.sems[i].queue;
    if s.lists.on[q] != [] {
      HomeOfIndex(s.lists, q, 0);
      assert |Popped(s, q).lists.on[q]| < |s.lists.on[q]|;
    }
  }

  ghost function QueueLength(s: Sys, i: int): nat
    requires Mid(s, EMPTY, i, 0) && 0 <= i < NSEM
  {
    |s.lists.on[s.sems[i].queue]|
  }

  lemma ReleaseStep(s: Sys, i: int)
    requires Mid(s, EMPTY, i, 0) && Core(s) && 0 <= i < NSEM
    ensures |s.sems| == NSEM && s.sems[i].queue in s.lists.on
    ensures s.lists.on[s.sems[i].queue] == [] ==> ReleaseAll(s, i) == s
    ensures s.lists.on[s.sems[i].queue] != [] ==>
      var t := Released(s, i);
      && Mid(t, EMPTY, i, 0) && Core(t) && ReleaseAll(t, i) == ReleaseAll(s, i) && QueueLength(t, i) < QueueLength(s, i)
  {
    hide LooseBut, SemsBut, SleepBut, MsgsBut;
    MidFacts(s, EMPTY, i);
    QueueFacts(s, i);
  }

  ghost predicate DeleteReady(s: Sys, i: int)
  {
    0 <= i < NSEM && Mid(s, EMPTY, i, 0) && Core(s) && Balanced(s, i)
  }

  lemma DeleteStep(s: Sys, i: int)
    requires DeleteReady(s, i)
    ensures |s.sems| == NSEM
    ensures var t := SetCount(s, i, s.sems[i].count + 1);
            && Mid(t, EMPTY, i, 0) && Core(t)
            && if s.sems[i].count >= 0 then DeleteLoop(s, i) == t
               else && t.lists.on[t.sems[i].queue] != [] && DeleteReady(Released(t, i), i)
                    && DeleteLoop(Released(t, i), i) == DeleteLoop(s, i)
                       && QueueLength(Released(t, i), i) < QueueLength(s, i)
  {
    hide LooseBut, SemsBut, SleepBut, MsgsBut, SchedOK;
    MidFacts(s, EMPTY, i);
    QueueFacts(s, i);
    SemMid(s, EMPTY, i, 0, s.sems[i].(count := s.sems[i].count + 1));
    var t := SetCount(s, i, s.sems[i].count + 1);
    MidFacts(t, EMPTY, i);
  }

  lemma ResetStart(s: Sys, i: int)
    requires Inv(s) && 0 <= i < NSEM
    ensures Mid(Start(s), EMPTY, i, 0) && Core(Start(s))
  {
    hide LooseBut, SemsBut, SleepBut, MsgsBut, SchedOK;
    InvFacts(s);
    StartMid(s, EMPTY, 0);
    OpenSem(Start(s), EMPTY, i, 0);
  }

  lemma DeleteStart(s: Sys, i: int)
    requires Inv(s) && 0 <= i < NSEM && s.sems[i].used
    ensures var s0 := s.(sems := s.sems[i := s.sems[i].(used := false)]);
            Sound(s0) && DeleteReady(Start(s0), i)
  {
    hide Shape, NoDup, PrioOK, OneCurr, ReadyOK, Descending, MsgOK;
    OpenSem(s, EMPTY, i, 0);
    SemMid(s, EMPTY, i, 0, s.sems[i].(used := false));
    StartMid(s.(sems := s.sems[i := s.sems[i].(used := false)]), i, 0);
  }

  ghost function SleepLength(s: Sys): nat
    requires WakeReady(s)
  {
    |s.lists.on[s.sleepq]|
  }

  lemma SleepFacts(s: Sys)
    requires WakeReady(s)
    ensures LooseBut(s, EMPTY) && Sound(s) && s.sleepq in s.lists.on && !BadQid(s.sleepq) && |s.lists.key| == NPROC
    ensures SleepLength(s) == |s.lists.on[s.sleepq]|
    ensures SleepLength(s) > 0 ==> 0 <= First(s, s.sleepq) < NPROC
  {
  }

  /** The first sleeper can be made ready once its time is up. */
  ghost predicate Waken(s: Sys)
    requires WakeReady(s) && SleepLength(s) > 0
  {
    Woken(Popped(s, s.sleepq), First(s, s.sleepq), EMPTY, 0)
  }

  lemma WakenIs(s: Sys)
    requires WakeReady(s) && SleepLength(s) > 0 && s.lists.key[First(s, s.sleepq)] <= 0
    ensures Waken(s)
  {
    hide LooseBut, SemsBut, SleepBut, MsgsBut, Popped, Readied;
    SleepFacts(s);
    PopSleepMid(s);
    PoppedFields(s, s.sleepq);
    WokenIs(Popped(s, s.sleepq), First(s, s.sleepq), EMPTY, 0);
  }

  lemma PoppedFields(s: Sys, q: int)
    requires Sound(s) && q in s.lists.on && s.lists.on[q] != []
    ensures Popped(s, q).procs == s.procs && Popped(s, q).curr == s.curr
  {
  }

  lemma WakeStep(s: Sys)
    requires WakeReady(s)
    ensures if SleepLength(s) > 0 && s.lists.key[First(s, s.sleepq)] <= 0 then
              && Waken(s)
              && var t := Readied(Popped(s, s.sleepq), First(s, s.sleepq));
                 WakeReady(t) && WakeLoop(t) == WakeLoop(s) && SleepLength(t) < SleepLength(s)
            else WakeLoop(s) == s
  {
    hide LooseBut, SemsBut, SleepBut, MsgsBut, SchedOK;
    SleepFacts(s);
    if SleepLength(s) > 0 && s.lists.key[First(s, s.sleepq)] <= 0 {
      WakenIs(s);
    }
  }

  lemma TickFacts(s: Sys)
    requires Inv(s)
    ensures |s.procs| == NPROC && 0 <= s.curr < NPROC
    ensures Core(s) && LooseBut(s, EMPTY) && Sound(s) && s.procs[s.curr].state == Curr && s.sleepq in s.lists.on
            && |s.lists.key| == NPROC
    ensures s.lists.on[s.sleepq] != [] ==>
      && WakeReady(Ticked1(s)) && LooseBut(Ticked1(s), EMPTY) && Ticked1(s).procs[Ticked1(s).curr].state == Curr
      && s.lists.on[s.sleepq][0] == First(s, s.sleepq)
  {
    hide SemsBut, SleepBut, MsgsBut, SchedOK;
    if s.lists.on[s.sleepq] != [] {
      TickMid(s);
    }
  }

  lemma MessageThere(s: Sys)
    requires Inv(s) && (s.at[s.curr] == InReceive || s.procs[s.curr].hasmsg)
    ensures s.procs[s.curr].hasmsg
  {
    assert MsgOK(s, s.curr);
  }

  /** Empty lists for the first n semaphores. */
  ghost predicate SemQueues(on: map<int, seq<int>>, n: int)
  {
    forall q :: (q in on <==> NPROC <= q < NPROC + 2 * n && q % 2 == NPROC % 2) && (q in on ==> on[q] == [])
  }

  /** Before the first call: the null process runs, nothing else is in use. */
  ghost predicate Initial(s: Sys)
  {
    && |s.procs| == NPROC && |s.at| == NPROC && |s.sems| == NSEM && |s.lists.home| == NPROC && |s.lists.key| == NPROC
    && s.procs[NULLPROC].state == Curr && s.procs[NULLPROC].prio == 0 && !s.procs[NULLPROC].hasmsg
    && (forall p :: 0 < p < NPROC ==> s.procs[p].state == Free)
    && (forall p :: 0 <= p < NPROC ==> s.at[p] == Outside && s.lists.home[p] == EMPTY)
    && (forall i :: 0 <= i < NSEM ==> s.sems[i] == Sem(false, 0, NPROC + 2 * i))
    && SemQueues(s.lists.on, NSEM + 2) && s.curr == NULLPROC && s.ndefers == 0 && !s.attempt && s.nextpid == 1
       && s.nextsem == 0
    && s.readylist == NPROC + 2 * NSEM && s.sleepq == NPROC + 2 * NSEM + 2
  }

  /** The kernel's invariant holds at the start. */
  lemma InitialInv(s: Sys)
    requires Initial(s)
    ensures Inv(s)
  {
    assert Shape(s.lists);
    assert Sound(s);
    forall p | 0 <= p < NPROC
      ensures HomeOK(s, p) && MsgOK(s, p)
    {
    }
    forall i | 0 <= i < NSEM
      ensures CountOK(s, i)
    {
    }
  }

  lemma NoLists(t: seq<QEntry>, s: Lists)
    requires |t| == NQENT && s.on == map[] && |s.home| == NPROC && |s.key| == NPROC
    requires forall p :: 0 <= p < NPROC ==> s.home[p] == EMPTY && s.key[p] == t[p].qkey
    ensures Threaded(t, s)
  {
  }
}
