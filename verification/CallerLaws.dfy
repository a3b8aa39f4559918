// The process manager as its callers see it: from the calls that were made, by whom, and what they
// were answered, one can tell who is alive, who is suspended, and which message waits for whom; and
// that decides the answers to come (system/send.c, receive.c, recvtime.c, recvclr.c, create.c,
// kill.c, suspend.c, resume.c).

module CallerLaws {

  import opened Common
  import opened Queues
  import opened Delta
  import opened Sched
  import opened Calls
  import opened Procs
  import opened Kernel
  import opened KernelRun
  import opened Semaphores
  import opened SleepLaws
  import opened ProcLaws
  import opened RunLaws

  /** One call: who made it (for the clock, who was interrupted), what it was, what it was answered. */
  datatype Event = Event(who: int, call: Call, answer: Reply)

  /** What is known of a process: the priority that it was created with, by whom, and whether it
      has been suspended and not resumed. */
  datatype Life = Life(prio: int, parent: int, suspended: bool)

  /** Who is alive, and the message waiting for each process that has one. */
  datatype Ledger = Ledger(alive: map<int, Life>, box: map<int, int>)

  /** At start-up only the null process is alive. */
  function NewLedger(): Ledger
  {
    Ledger(map[NULLPROC := Life(0, NULLPROC, false)], map[])
  }

  /** The value answered, where there is one. */
  predicate Answered(e: Event, v: int)
  {
    e.answer == Done(v)
  }

  /** A message is delivered to process p with contents m: by send, or by the killing of a child. */
  predicate Delivered(l: Ledger, e: Event, p: int, m: int)
  {
    || (e.call == SendCall(p, m) && Answered(e, OK))
    || (e.call == KillCall(m) && Answered(e, OK) && m in l.alive && l.alive[m].parent == p && p in l.alive
       && p !in l.box)
  }

  /** Process p takes the message that waits for it, if there is one. */
  predicate Takes(e: Event, p: int)
  {
    && e.who == p
    && match e.call
       case ReceiveCall => e.answer.Done?
       case ReceiveRest => true
       case RecvTimeCall(d) => d >= 0 && e.answer.Done?
       case RecvTimeRest => true
       case RecvClrCall => true
       case _ => false
  }

  /** Process p comes into being. */
  predicate Begins(e: Event, p: int)
  {
    e.call.CreateCall? && Answered(e, p) && p != SYSERR
  }

  /** The ledger after one more call. */
  function Record(l: Ledger, e: Event): Ledger
  {
    match e.call
    case CreateCall(_, prio) =>
      if e.answer.Done? && e.answer.value != SYSERR then
        Ledger(l.alive[e.answer.value := Life(prio, e.who, true)], l.box - {e.answer.value})
      else l
    case KillRest(p) => l.(alive := l.alive - {p})
    case SuspendCall(p) =>
      if e.answer != Done(SYSERR) && p in l.alive then l.(alive := l.alive[p := l.alive[p].(suspended := true)]) else l
    case ResumeCall(p) =>
      if e.answer != Done(SYSERR) && p in l.alive then l.(alive := l.alive[p := l.alive[p].(suspended := false)]) else l
    case SendCall(p, m) => if Answered(e, OK) then l.(box := l.box[p := m]) else l
    case KillCall(q) =>
      if q in l.alive && Delivered(l, e, l.alive[q].parent, q) then l.(box := l.box[l.alive[q].parent := q]) else l
    case _ => if Takes(e, e.who) then l.(box := l.box - {e.who}) else l
  }

  function LedgerOf(l: Ledger, tr: seq<Event>): Ledger
    decreases |tr|
  {
    if tr == [] then l else Record(LedgerOf(l, tr[..|tr| - 1]), tr[|tr| - 1])
  }

  /** What the ledger says about the answer to a call. */
  predicate Expected(l: Ledger, e: Event)
  {
    var me := e.who;
    match e.call
    case SendCall(p, _) => Answered(e, if p in l.alive && p !in l.box then OK else SYSERR)
    case ReceiveCall => if me in l.box then Answered(e, l.box[me]) else e.answer == Blocked
    case ReceiveRest => me in l.box && Answered(e, l.box[me])
    case RecvTimeCall(d) =>
      if d < 0 then Answered(e, SYSERR) else if me in l.box then Answered(e, l.box[me]) else e.answer == Blocked
    case RecvTimeRest => Answered(e, if me in l.box then l.box[me] else TIMEOUT)
    case RecvClrCall => Answered(e, if me in l.box then l.box[me] else OK)
    case ResumeCall(p) => Answered(e, if p in l.alive && l.alive[p].suspended then l.alive[p].prio else SYSERR)
    case SuspendCall(p) =>
      Answered(e, SYSERR) || (p in l.alive && p != NULLPROC && !l.alive[p].suspended && Answered(e, l.alive[p].prio))
    case KillCall(p) => Answered(e, if p in l.alive && p != NULLPROC then OK else SYSERR)
    case CreateCall(g, prio) =>
      || (Answered(e, SYSERR) && (!g || prio < 1 || forall p :: 0 <= p < NPROC ==> p in l.alive))
      || (g && prio >= 1 && exists p :: 0 < p < NPROC && p !in l.alive && Answered(e, p))
    case _ => true
  }

  // ---- the tables agree with the ledger ------------------------------------------------------------

  ghost predicate Agrees(s: Sys, l: Ledger)
  {
    && |s.procs| == NPROC
    && (forall p :: p in l.alive ==> 0 <= p < NPROC)
    && forall p :: 0 <= p < NPROC ==> EntryAgrees(s.procs[p], l, p)
  }

  predicate EntryAgrees(a: Proc, l: Ledger, p: int)
  {
    && (p in l.alive <==> a.state != Free)
    && (p in l.alive ==>
          && a.prio == l.alive[p].prio && (p != NULLPROC ==> a.parent == l.alive[p].parent)
          && (l.alive[p].suspended <==> a.state == Susp)
          && (p in l.box <==> a.hasmsg) && (a.hasmsg ==> l.box[p] == a.msg))
  }

  ghost function EventOf(s: Sys, c: Call): Event
    requires Inv(s) && CallOK(s, c)
  {
    Event(s.curr, c, Answer(s, c))
  }

  /** One call: the answer is what the ledger says, and the ledger stays in step. */
  lemma OneCall(s: Sys, c: Call, l: Ledger)
    requires Inv(s) && CallOK(s, c) && Agrees(s, l)
    ensures Expected(l, EventOf(s, c)) && Agrees(Apply(s, c), Record(l, EventOf(s, c)))
  {
    hide Inv, CallOK, Apply, Entry, Answer, Record, EntryAgrees;
    EntriesLaw(s, c);
    OneAnswer(s, c, l);
    var t, k := Apply(s, c), Record(l, EventOf(s, c));
    forall p | 0 <= p < NPROC
      ensures EntryAgrees(t.procs[p], k, p)
    {
      assert Alike(Entry(s, c, p), t.procs[p]);
      OneEntry(s, c, l, p);
      AlikeAgrees(Entry(s, c, p), t.procs[p], k, p);
    }
    RecordInRange(s, c, l);
  }

  lemma AlikeAgrees(a: Proc, b: Proc, l: Ledger, p: int)
    requires Alike(a, b) && EntryAgrees(a, l, p)
    ensures EntryAgrees(b, l, p)
  {
  }

  lemma AgreesAt(s: Sys, l: Ledger, p: int)
    requires Agrees(s, l) && 0 <= p < NPROC
    ensures |s.procs| == NPROC && EntryAgrees(s.procs[p], l, p)
  {
  }

  /** What the invariant says about who makes a call. */
  lemma Caller(s: Sys, l: Ledger)
    requires Inv(s) && Agrees(s, l)
    ensures 0 <= s.curr < NPROC && s.procs[s.curr].state == Curr && s.curr in l.alive && !l.alive[s.curr].suspended
    ensures s.curr in l.box <==> s.procs[s.curr].hasmsg
    ensures s.procs[s.curr].hasmsg ==> l.box[s.curr] == s.procs[s.curr].msg
    ensures s.at[s.curr] == InReceive ==> s.procs[s.curr].hasmsg
    ensures |s.procs| == NPROC && s.procs[NULLPROC].state in RUNNABLE
    ensures forall p :: 0 <= p < NPROC && s.procs[p].state != Free ==> s.procs[p].prio >= 0
  {
    hide Shape, SemsBut, SleepBut, SchedOK, ReadyOK;
    AgreesAt(s, l, s.curr);
    assert MsgOK(s, s.curr);
  }

  lemma OneAnswer(s: Sys, c: Call, l: Ledger)
    requires Inv(s) && CallOK(s, c) && Agrees(s, l)
    ensures Expected(l, EventOf(s, c))
  {
    hide Mid, SchedOK, Agrees, FindPid, FindSem;
    Caller(s, l);
    match c
    case SendCall(p, _) => Target(s, l, p);
    case ResumeCall(p) => Target(s, l, p);
    case SuspendCall(p) => Target(s, l, p);
    case KillCall(p) => Target(s, l, p);
    case CreateCall(g, prio) => CreateAnswer(s, c, l);
    case _ =>
  }

  /** A process named in a call. */
  lemma Target(s: Sys, l: Ledger, p: int)
    requires Agrees(s, l)
    ensures |s.procs| == NPROC && (BadPid(s, p) <==> p !in l.alive)
    ensures p in l.alive ==> 0 <= p < NPROC && EntryAgrees(s.procs[p], l, p)
  {
    if 0 <= p < NPROC {
      AgreesAt(s, l, p);
    }
  }

  /** The search for a process entry: the first free one round the table. */
  lemma {:induction false} FindPidLaw(procs: seq<Proc>, next: int, tries: nat)
    requires |procs| == NPROC && 0 <= next <= NPROC && tries <= NPROC
    ensures FirstFree(FreeEntries(procs), next, tries, FindPid(procs, next, tries).0)
    ensures FindPid(procs, next, tries).0 != -1 ==> FindPid(procs, next, tries).1 == FindPid(procs, next, tries).0 + 1
    decreases tries
  {
    hide FirstFree;
    var free := FreeEntries(procs);
    if tries == 0 {
      NoTries(free, next);
    } else if procs[next % NPROC].state == Free {
      FirstFreeHere(free, next, tries);
    } else {
      FindPidLaw(procs, next % NPROC + 1, tries - 1);
      FirstFreeStep(free, next, next % NPROC + 1, tries, FindPid(procs, next, tries).0);
    }
  }

  function FreeEntries(procs: seq<Proc>): (r: seq<bool>)
    ensures |r| == |procs|
  {
    seq(|procs|, i requires 0 <= i < |procs| => procs[i].state == Free)
  }

  lemma NoneFree(procs: seq<Proc>, next: int)
    requires |procs| == NPROC && 0 <= next <= NPROC && FindPid(procs, next, NPROC).0 == -1
    ensures forall p :: 0 <= p < NPROC ==> procs[p].state != Free
  {
    hide FirstFree;
    var free := FreeEntries(procs);
    FindPidLaw(procs, next, NPROC);
    FirstFreeNone(free, next);
    assert forall p :: 0 <= p < NPROC ==> free[p] == (procs[p].state == Free);
  }

  lemma CreateAnswer(s: Sys, c: Call, l: Ledger)
    requires Inv(s) && CallOK(s, c) && Agrees(s, l) && c.CreateCall?
    ensures Expected(l, EventOf(s, c))
  {
    hide Mid, SchedOK, Agrees, FindPid, EntryAgrees;
    Caller(s, l);
    InvSound(s);
    NextInRange(s);
    var p := FindPid(s.procs, s.nextpid, NPROC).0;
    if p == -1 {
      NoneFree(s.procs, s.nextpid);
      forall x | 0 <= x < NPROC
        ensures x in l.alive
      {
        Target(s, l, x);
      }
    } else {
      Target(s, l, p);
    }
  }

  lemma NextInRange(s: Sys)
    requires Sound(s)
    ensures |s.procs| == NPROC && 0 <= s.nextpid <= NPROC
  {
  }

  /** Who is made ready by a call about a semaphore or by the clock was waiting or asleep. */
  lemma WasBlocked(s: Sys, c: Call, p: int)
    requires Inv(s) && CallOK(s, c) && 0 <= p < NPROC && (OnSemaphore(c) || c == Tick)
    ensures Entry(s, c, p) == s.procs[p].(state := Entry(s, c, p).state, sem := Entry(s, c, p).sem)
    ensures Entry(s, c, p).state == s.procs[p].state
            || (s.procs[p].state !in {Free, Susp} && Entry(s, c, p).state !in {Free, Susp})
  {
    hide SemsBut, SleepBut, MsgsBut, SchedOK, PrioOK, ReadyOK, TimeLeft;
    InvLoose(s);
    if OnSemaphore(c) && !c.SemCreateCall? && SemInUse(s, c.sem) && p in WaitersOf(s, c.sem) {
      StateDecidesList(s, [], s, p);
    }
    if c.SignalCall? && SemInUse(s, c.sem) {
      TakenWaits(WaitersOf(s, c.sem), 1, p);
    } else if c.SignalNCall? && SemInUse(s, c.sem) && c.count >= 0 {
      TakenWaits(WaitersOf(s, c.sem), c.count, p);
    }
  }

  lemma TakenWaits(w: seq<int>, n: nat, p: int)
    ensures p in Taken(w, n) ==> p in w
  {
  }

  lemma OneEntry(s: Sys, c: Call, l: Ledger, p: int)
    requires Inv(s) && CallOK(s, c) && Agrees(s, l) && 0 <= p < NPROC
    ensures EntryAgrees(Entry(s, c, p), Record(l, EventOf(s, c)), p)
  {
    hide Mid, SchedOK, Agrees, FindPid, FindSem, Entry, Taken, WaitersOf;
    Caller(s, l);
    AgreesAt(s, l, p);
    if OnSemaphore(c) || c == Tick {
      WasBlocked(s, c, p);
      BlockedEntry(s, c, l, p);
    } else if c.SendCall? || c.KillCall? {
      MessageEntry(s, c, l, p);
    } else if c.CreateCall? {
      CreateEntry(s, c, l, p);
    } else {
      OtherEntry(s, c, l, p);
    }
  }

  lemma BlockedEntry(s: Sys, c: Call, l: Ledger, p: int)
    requires Inv(s) && CallOK(s, c) && 0 <= p < NPROC && (OnSemaphore(c) || c == Tick)
    requires |s.procs| == NPROC && EntryAgrees(s.procs[p], l, p)
    requires Entry(s, c, p) == s.procs[p].(state := Entry(s, c, p).state, sem := Entry(s, c, p).sem)
    requires Entry(s, c, p).state == s.procs[p].state
             || (s.procs[p].state !in {Free, Susp} && Entry(s, c, p).state !in {Free, Susp})
    ensures EntryAgrees(Entry(s, c, p), Record(l, EventOf(s, c)), p)
  {
    hide Inv, CallOK, Entry, Answer;
  }

  lemma MessageEntry(s: Sys, c: Call, l: Ledger, p: int)
    requires Inv(s) && CallOK(s, c) && Agrees(s, l) && 0 <= p < NPROC && (c.SendCall? || c.KillCall?)
    ensures EntryAgrees(Entry(s, c, p), Record(l, EventOf(s, c)), p)
  {
    hide Mid, SchedOK, Agrees;
    Caller(s, l);
    AgreesAt(s, l, p);
    Target(s, l, c.pid);
    if c.KillCall? && c.pid in l.alive {
      Target(s, l, l.alive[c.pid].parent);
    }
  }

  lemma CreateEntry(s: Sys, c: Call, l: Ledger, p: int)
    requires Inv(s) && CallOK(s, c) && Agrees(s, l) && 0 <= p < NPROC && c.CreateCall?
    ensures EntryAgrees(Entry(s, c, p), Record(l, EventOf(s, c)), p)
  {
    hide Mid, SchedOK, Agrees, FindPid;
    AgreesAt(s, l, p);
  }

  lemma OtherEntry(s: Sys, c: Call, l: Ledger, p: int)
    requires Inv(s) && CallOK(s, c) && Agrees(s, l) && 0 <= p < NPROC
    requires !OnSemaphore(c) && c != Tick && !c.SendCall? && !c.KillCall? && !c.CreateCall?
    ensures EntryAgrees(Entry(s, c, p), Record(l, EventOf(s, c)), p)
  {
    hide Mid, SchedOK, Agrees;
    Caller(s, l);
    AgreesAt(s, l, p);
    if c.SuspendCall? || c.ResumeCall? {
      Target(s, l, c.pid);
    }
  }

  lemma RecordInRange(s: Sys, c: Call, l: Ledger)
    requires Inv(s) && CallOK(s, c) && Agrees(s, l)
    ensures |Apply(s, c).procs| == NPROC && forall p :: p in Record(l, EventOf(s, c)).alive ==> 0 <= p < NPROC
  {
    hide Mid, SchedOK, Apply, EntryAgrees, FindPid;
    InvSound(Apply(s, c));
    SizesOf(Apply(s, c));
  }

  // ---- runs ------------------------------------------------------------------------------------------

  ghost function Trace(s: Sys, calls: seq<Call>): (tr: seq<Event>)
    requires Inv(s) && RunOK(s, calls)
    ensures |tr| == |calls|
    decreases |calls|
  {
    if calls == [] then [] else [EventOf(s, calls[0])] + Trace(Apply(s, calls[0]), calls[1..])
  }

  /** The ledger of a trace, first call first. */
  lemma {:induction false} LedgerFirst(l: Ledger, tr: seq<Event>)
    requires tr != []
    ensures LedgerOf(l, tr) == LedgerOf(Record(l, tr[0]), tr[1..])
    decreases |tr|
  {
    hide Record;
    if |tr| == 1 {
      assert tr[..0] == [] && tr[1..] == [];
    } else {
      var init := tr[..|tr| - 1];
      LedgerFirst(l, init);
      assert tr[1..][..|tr[1..]| - 1] == init[1..];
    }
  }

  /** Over every run the tables agree with the ledger of the calls and answers so far, and the ledger
      tells every answer. */
  lemma {:induction false} RunAgrees(s: Sys, calls: seq<Call>, l: Ledger)
    requires Inv(s) && RunOK(s, calls) && Agrees(s, l)
    ensures Agrees(Run(s, calls), LedgerOf(l, Trace(s, calls)))
    ensures forall k :: 0 <= k < |calls| ==> Expected(LedgerOf(l, Trace(s, calls)[..k]), Trace(s, calls)[k])
    decreases |calls|
  {
    hide Inv, CallOK, Apply, Agrees, Expected, Record, EventOf;
    if calls == [] {
    } else {
      var t, rest, e := Apply(s, calls[0]), calls[1..], EventOf(s, calls[0]);
      var tr, tail := Trace(s, calls), Trace(t, rest);
      OneCall(s, calls[0], l);
      RunAgrees(t, rest, Record(l, e));
      LedgerFirst(l, tr);
      assert tr[1..] == tail && tr[0] == e;
      forall k | 0 <= k < |calls|
        ensures Expected(LedgerOf(l, tr[..k]), tr[k])
      {
        if k == 0 {
          assert tr[..0] == [];
        } else {
          LedgerFirst(l, tr[..k]);
          assert tr[..k][1..] == tail[..k - 1] && tr[..k][0] == e;
        }
      }
    }
  }

  lemma StartAgrees(s: Sys)
    requires Initial(s)
    ensures Inv(s) && Agrees(s, NewLedger())
  {
    InitialInv(s);
  }

  /** Process p takes no message, gets none and does not begin. */
  ghost predicate Untouched(l: Ledger, e: Event, p: int)
  {
    !Takes(e, p) && !Begins(e, p) && forall n :: !Delivered(l, e, p, n)
  }

  /** Message m for p was delivered by call k, and nobody has taken it or sent another since. */
  ghost predicate Waits(l: Ledger, tr: seq<Event>, p: int, m: int, k: int)
  {
    && 0 <= k < |tr| && Delivered(LedgerOf(l, tr[..k]), tr[k], p, m)
    && forall j :: k < j < |tr| ==> Untouched(LedgerOf(l, tr[..j]), tr[j], p)
  }

  /** A message that waits for a process was delivered once and has not been taken: so no message is
      answered twice, and none that was not sent. */
  lemma {:induction false} WhereFrom(l: Ledger, tr: seq<Event>, p: int)
    requires l.box == map[] && (forall k :: 0 <= k < |tr| ==> Expected(LedgerOf(l, tr[..k]), tr[k]))
             && p in LedgerOf(l, tr).box
    ensures exists k :: Waits(l, tr, p, LedgerOf(l, tr).box[p], k)
    decreases |tr|
  {
    hide Record, Expected, Delivered, Untouched;
    if tr == [] {
      assert false;
    } else {
      var init, e := tr[..|tr| - 1], tr[|tr| - 1];
      var a, b := LedgerOf(l, init), LedgerOf(l, tr);
      forall k | 0 <= k < |init|
        ensures Expected(LedgerOf(l, init[..k]), init[k])
      {
        assert init[..k] == tr[..k];
      }
      BoxStep(a, e, p);
      assert tr[..|tr| - 1] == init;
      if Delivered(a, e, p, b.box[p]) {
        assert Waits(l, tr, p, b.box[p], |tr| - 1);
      } else {
        WhereFrom(l, init, p);
        var k :| Waits(l, init, p, a.box[p], k);
        WaitsOn(l, tr, p, a.box[p], k);
      }
    }
  }

  /** What one call does to the message that waits for p. */
  lemma BoxStep(l: Ledger, e: Event, p: int)
    requires Expected(l, e) && p in Record(l, e).box
    ensures Delivered(l, e, p, Record(l, e).box[p])
            || (p in l.box && Record(l, e).box[p] == l.box[p] && Untouched(l, e, p))
  {
  }

  lemma WaitsOn(l: Ledger, tr: seq<Event>, p: int, m: int, k: int)
    requires tr != [] && Waits(l, tr[..|tr| - 1], p, m, k)
    requires Untouched(LedgerOf(l, tr[..|tr| - 1]), tr[|tr| - 1], p)
    ensures Waits(l, tr, p, m, k)
  {
    hide LedgerOf, Delivered, Untouched;
    var init := tr[..|tr| - 1];
    assert forall j :: 0 <= j < |tr| ==> tr[..j] == if j < |init| then init[..j] else init;
  }

  /** Whatever receive, recvtime or recvclr answers a process was sent to it, by a send that was answered
      with OK or by the killing of a child of it, and it has neither taken it before nor been sent
      anything else since. */
  lemma MessagesLaw(s: Sys, calls: seq<Call>, k: int)
    requires Initial(s) && (InitialInv(s); RunOK(s, calls)) && 0 <= k < |calls|
    ensures Inv(s)
    ensures var tr := Trace(s, calls); var before := tr[..k]; var e := tr[k];
            Takes(e, e.who) && e.who in LedgerOf(NewLedger(), before).box ==>
              e.answer.Done? && exists j :: Waits(NewLedger(), before, e.who, e.answer.value, j)
  {
    hide Inv, Trace, Expected, Waits, Agrees, LedgerOf, Delivered;
    StartAgrees(s);
    RunAgrees(s, calls, NewLedger());
    var tr := Trace(s, calls);
    var before, e := tr[..k], tr[k];
    if Takes(e, e.who) && e.who in LedgerOf(NewLedger(), before).box {
      forall j | 0 <= j < |before|
        ensures Expected(LedgerOf(NewLedger(), before[..j]), before[j])
      {
        assert before[..j] == tr[..j];
      }
      WhereFrom(NewLedger(), before, e.who);
      TakesBox(LedgerOf(NewLedger(), before), e);
    }
  }

  lemma TakesBox(l: Ledger, e: Event)
    requires Expected(l, e) && Takes(e, e.who) && e.who in l.box
    ensures Answered(e, l.box[e.who])
  {
  }

  // ---- killing ---------------------------------------------------------------------------------------

  /** Process p is free, is not the current one, and is on no list. */
  ghost predicate Gone(t: Sys, p: int)
  {
    && Sound(t) && 0 <= p < |t.procs| && t.procs[p].state == Free && t.curr != p
    && forall q :: q in t.lists.on ==> p !in t.lists.on[q]
  }

  /** Whatever a process was doing, after the rest of kill it is free and on no list, and nothing has
      happened to any other process, except that one may have been dispatched. */
  lemma KilledLaw(s: Sys, p: int)
    requires Inv(s) && CallOK(s, KillRest(p))
    ensures var t := Apply(s, KillRest(p));
            && 0 <= p < NPROC && Gone(t, p)
            && |s.procs| == NPROC && forall x :: 0 <= x < NPROC && x != p ==> Alike(s.procs[x], t.procs[x])
  {
    hide Mid, SchedOK, Removed, MadeReady;
    var t := Apply(s, KillRest(p));
    InvSound(s);
    SizesOf(s);
    InvSound(t);
    SizesOf(t);
    EntriesLaw(s, KillRest(p));
    KillEntry(s, p);
    assert Alike(Entry(s, KillRest(p), p), t.procs[p]);
    CurrIsCurr(t);
    StateDecidesList(t, [], t, p);
    forall x | 0 <= x < NPROC && x != p
      ensures Alike(s.procs[x], t.procs[x])
    {
      assert Alike(Entry(s, KillRest(p), x), t.procs[x]);
    }
  }

  lemma CurrIsCurr(s: Sys)
    requires Inv(s)
    ensures 0 <= s.curr < |s.procs| && s.procs[s.curr].state == Curr
  {
  }

  /** Nobody comes to life but by a create that answers its number. */
  lemma {:induction false} StaysDead(l: Ledger, tr: seq<Event>, p: int)
    requires p !in l.alive && forall j :: 0 <= j < |tr| ==> !Begins(tr[j], p)
    ensures p !in LedgerOf(l, tr).alive
    decreases |tr|
  {
    hide Begins, Record;
    if tr == [] {
    } else {
      var init, e := tr[..|tr| - 1], tr[|tr| - 1];
      StaysDead(l, init, p);
      RecordAlive(LedgerOf(l, init), e, p);
    }
  }

  lemma RecordAlive(l: Ledger, e: Event, p: int)
    requires p !in l.alive && !Begins(e, p)
    ensures p !in Record(l, e).alive
  {
  }

  /** Who is dead stays gone along every run in which no create answers its number. */
  lemma DeadStaysGone(s: Sys, p: int, calls: seq<Call>, l: Ledger)
    requires Inv(s) && RunOK(s, calls) && Agrees(s, l) && 0 <= p < NPROC && p !in l.alive
    requires forall j :: 0 <= j < |calls| ==> !Begins(Trace(s, calls)[j], p)
    ensures Gone(Run(s, calls), p)
  {
    hide Inv, Agrees, LedgerOf, Trace, Run, RunOK, Begins, Gone;
    RunAgrees(s, calls, l);
    StaysDead(l, Trace(s, calls), p);
    DeadIsGone(Run(s, calls), LedgerOf(l, Trace(s, calls)), p);
  }

  lemma DeadIsGone(t: Sys, l: Ledger, p: int)
    requires Inv(t) && Agrees(t, l) && p !in l.alive && 0 <= p < NPROC
    ensures Gone(t, p)
  {
    hide Mid, SchedOK;
    InvSound(t);
    AgreesAt(t, l, p);
    CurrIsCurr(t);
    StateDecidesList(t, [], t, p);
  }

  /** It can neither be resumed nor suspended nor sent anything nor killed. */
  lemma GoneIsRefused(t: Sys, p: int, c: Call)
    requires Inv(t) && CallOK(t, c) && Gone(t, p)
    requires c == ResumeCall(p) || c == SuspendCall(p) || c == KillCall(p) || (c.SendCall? && c.pid == p)
    ensures Answer(t, c) == Done(SYSERR) && Apply(t, c) == t
  {
    hide Mid, SchedOK;
  }

  /** Along every run after its kill, until a create answers its number, a killed process is gone. */
  lemma KilledStaysKilled(s: Sys, p: int, calls: seq<Call>, l: Ledger)
    requires Inv(s) && CallOK(s, KillRest(p)) && RunOK(Apply(s, KillRest(p)), calls) && Agrees(s, l)
    requires forall j :: 0 <= j < |calls| ==> !Begins(Trace(Apply(s, KillRest(p)), calls)[j], p)
    ensures Gone(Run(Apply(s, KillRest(p)), calls), p)
  {
    hide Inv, Apply, Agrees, LedgerOf, Trace, Run, RunOK, Begins, Gone, Answer;
    var e := EventOf(s, KillRest(p));
    OneCall(s, KillRest(p), l);
    DeadStaysGone(Apply(s, KillRest(p)), p, calls, Record(l, e));
  }
}
