// Ports as their callers see them.  A book is kept of the calls that were made and of what they were
// answered: for each port how many messages it was created for, what has been sent to it and received
// from it since it was last cleared, and for each process which call it is inside and with which
// message.  The book decides every answer to come (system/ptcreate.c, ptsend.c, ptrecv.c, ptreset.c,
// ptdelete.c, ptcount.c).

module PortCallers {

  import opened Common
  import opened PortSpec
  import opened PortRun

  datatype Phase = Unused | Open | Resetting | Deleting

  /** What is known of a port: how many messages it was created for and may hold now, how often it has
      been created or cleared, whether it got its two semaphores, and the messages sent and received. */
  datatype Page = Page(phase: Phase, count: int, cap: int, era: nat, senders: bool, receivers: bool,
                       sent: seq<int>, got: seq<int>)

  /** The call that a process is inside, and when it was made. */
  datatype Stay = Sends(port: int, msg: int, era: nat) | Receives(port: int, era: nat) | Clears(port: int, keep: bool)

  datatype Book = Book(pages: seq<Page>, stays: map<int, Stay>, next: int)

  /** At start-up there are no ports. */
  function NewBook(): Book
  {
    Book(seq(NPORTS, i => Page(Unused, 0, 0, 0, false, false, [], [])), map[], 0)
  }

  // ---- what the book tells -----------------------------------------------------------------------------

  predicate IsOpen(b: Book, i: int)
  {
    0 <= i < |b.pages| && b.pages[i].phase == Open
  }

  /** Can port i be sent to, or received from? */
  predicate CanSend(b: Book, i: int)
  {
    IsOpen(b, i) && b.pages[i].senders
  }

  predicate CanReceive(b: Book, i: int)
  {
    IsOpen(b, i) && b.pages[i].receivers
  }

  /** The messages sent and not yet received. */
  function Held(g: Page): int
  {
    |g.sent| - |g.got|
  }

  /** The process is inside a send, or a receive, on port i that it began in this era. */
  ghost predicate InCall(y: Stay, i: int, era: nat, send: bool)
  {
    if send then y.Sends? && y.port == i && y.era == era else y.Receives? && y.port == i && y.era == era
  }

  ghost function Callers(b: Book, i: int, send: bool): set<int>
    requires 0 <= i < |b.pages|
  {
    set p | p in b.stays && InCall(b.stays[p], i, b.pages[i].era, send)
  }

  /** The slots that nobody has been promised, and less than none when senders wait. */
  ghost function Room(b: Book, i: int): int
    requires 0 <= i < |b.pages|
  {
    b.pages[i].cap - Held(b.pages[i]) - |Callers(b, i, true)|
  }

  /** The messages that nobody has been promised, and less than none when receivers wait. */
  ghost function Spare(b: Book, i: int): int
    requires 0 <= i < |b.pages|
  {
    Held(b.pages[i]) - |Callers(b, i, false)|
  }

  /** The port that process p called has not been cleared since. */
  predicate Unchanged(b: Book, p: int)
    requires p in b.stays && !b.stays[p].Clears?
  {
    IsOpen(b, b.stays[p].port) && b.pages[b.stays[p].port].era == b.stays[p].era
  }

  /** The answer is the oldest message that port i holds. */
  predicate First(b: Book, i: int, r: Reply)
    requires 0 <= i < |b.pages|
  {
    Held(b.pages[i]) > 0 && r == Done(b.pages[i].sent[|b.pages[i].got|])
  }

  /** What the book says about the answer to the next call. */
  ghost predicate Tells(b: Book, e: Event, r: Reply)
  {
    match e
    case Create(n, _, _) =>
      r.Done? && if n < 0 then r.value == SYSERR
                 else 0 <= b.next < |b.pages| && FirstFree(UnusedPages(b), b.next, |b.pages|, r.value)
    case Send(_, i, _) => r == if !CanSend(b, i) then Done(SYSERR) else if Room(b, i) > 0 then Done(OK) else Blocked
    case SendRest(p) => p in b.stays && b.stays[p].Sends? && r == Done(if Unchanged(b, p) then OK else SYSERR)
    case Recv(_, i) =>
      if !CanReceive(b, i) then r == Done(SYSERR) else if Spare(b, i) > 0 then First(b, i, r) else r == Blocked
    case RecvRest(p) =>
      p in b.stays && b.stays[p].Receives? && if Unchanged(b, p) then First(b, b.stays[p].port, r)
          else r == Done(SYSERR)
    case Reset(_, i) => r == if IsOpen(b, i) then Blocked else Done(SYSERR)
    case Delete(_, i) => r == if IsOpen(b, i) then Blocked else Done(SYSERR)
    case Second(_) => r == Blocked
    case Third(_) => r == Done(OK)
  }

  function UnusedPages(b: Book): (r: seq<bool>)
    ensures |r| == |b.pages|
  {
    seq(|b.pages|, i requires 0 <= i < |b.pages| => b.pages[i].phase == Unused)
  }

  // ---- how the book is kept ------------------------------------------------------------------------------

  function Turn(b: Book, i: int, g: Page): Book
    requires 0 <= i < |b.pages|
  {
    b.(pages := b.pages[i := g])
  }

  function Enters(b: Book, p: int, y: Stay): Book
  {
    b.(stays := b.stays[p := y])
  }

  function Leaves(b: Book, p: int): Book
  {
    b.(stays := b.stays - {p})
  }

  /** A message has been sent to port i, or received from it. */
  function Sent(b: Book, i: int, msg: int): Book
    requires 0 <= i < |b.pages|
  {
    Turn(b, i, b.pages[i].(sent := b.pages[i].sent + [msg]))
  }

  function Got(b: Book, i: int, msg: int): Book
    requires 0 <= i < |b.pages|
  {
    Turn(b, i, b.pages[i].(got := b.pages[i].got + [msg]))
  }

  /** A reset, or a deletion, has begun.  What the port may hold afterwards is the low 16 bits of what
      it was created for. */
  function Shut(g: Page, keep: bool): Page
  {
    g.(phase := if keep then Resetting else Deleting, era := g.era + 1, sent := [], got := [],
       cap := if keep then g.count % 0x1_0000 else g.cap)
  }

  /** The book after the next call, from the call and what it was answered. */
  function Enter(b: Book, e: Event, r: Reply): Book
  {
    match e
    case Create(n, sOk, rOk) =>
      if r.Done? && 0 <= r.value < |b.pages| && n >= 0 then
        var i := r.value;
        Turn(b, i, Page(Open, n, n, b.pages[i].era + 1, sOk, rOk, [], [])).(next := Wrapped(i + 1))
      else b
    case Send(p, i, msg) =>
      if !IsOpen(b, i) then b
      else if r == Blocked then Enters(b, p, Sends(i, msg, b.pages[i].era))
      else if r == Done(OK) then Sent(b, i, msg) else b
    case SendRest(p) =>
      if p in b.stays && b.stays[p].Sends? && 0 <= b.stays[p].port < |b.pages| && r == Done(OK) then
        Sent(Leaves(b, p), b.stays[p].port, b.stays[p].msg)
      else Leaves(b, p)
    case Recv(p, i) =>
      if !CanReceive(b, i) then b
      else if r == Blocked then Enters(b, p, Receives(i, b.pages[i].era)) else Got(b, i, r.value)
    case RecvRest(p) =>
      if p in b.stays && !b.stays[p].Clears? && Unchanged(b, p) && r.Done? then
        Got(Leaves(b, p), b.stays[p].port, r.value)
      else Leaves(b, p)
    case Reset(p, i) =>
      if r == Blocked && IsOpen(b, i) then Enters(Turn(b, i, Shut(b.pages[i], true)), p, Clears(i, true)) else b
    case Delete(p, i) =>
      if r == Blocked && IsOpen(b, i) then Enters(Turn(b, i, Shut(b.pages[i], false)), p, Clears(i, false)) else b
    case Second(_) => b
    case Third(p) =>
      if p in b.stays && b.stays[p].Clears? && 0 <= b.stays[p].port < |b.pages| then
        var i, keep := b.stays[p].port, b.stays[p].keep;
        Turn(Leaves(b, p), i, b.pages[i].(phase := if keep then Open else Unused)).(next := if keep then b.next else i)
      else b
  }

  // ---- the tables agree with the book -----------------------------------------------------------------

  ghost predicate PageOK(P: Port, g: Page)
  {
    && P.epoch == g.era
    && P.state == (match g.phase case Unused => Free case Open => Alloc case _ => Limbo)
    && (g.phase == Open || g.phase == Resetting ==>
          && P.max == g.count % 0x1_0000 && P.cap == g.cap && P.ssem.valid == g.senders && P.rsem.valid == g.receivers
          && P.sent == g.sent && P.got == g.got)
  }

  function StayOf(f: Frame): Stay
  {
    match f
    case Sending(i, msg, _, epoch, _) => Sends(i, msg, epoch)
    case Receiving(i, _, epoch, _) => Receives(i, epoch)
    case Clearing(i, keep, _) => Clears(i, keep)
  }

  function StaysOf(f: map<int, Frame>): map<int, Stay>
  {
    map p | p in f :: StayOf(f[p])
  }

  ghost predicate PagesOK(ports: seq<Port>, pages: seq<Page>)
  {
    |ports| == |pages| == NPORTS && forall i :: 0 <= i < NPORTS ==> PageOK(ports[i], pages[i])
  }

  ghost predicate ClearsOK(b: Book)
  {
    forall p :: p in b.stays && b.stays[p].Clears? ==>
      && 0 <= b.stays[p].port < |b.pages|
      && b.pages[b.stays[p].port].phase == if b.stays[p].keep then Resetting else Deleting
  }

  ghost predicate BookOK(s: Sys, b: Book)
  {
    PagesOK(s.ports, b.pages) && b.stays == StaysOf(s.frames) && ClearsOK(b) && b.next == s.nextid
  }

  lemma StartBook(maxmsgs: nat)
    ensures Inv(Start(maxmsgs)) && BookOK(Start(maxmsgs), NewBook())
  {
    StartInv(maxmsgs);
    assert StaysOf(map[]) == map[];
  }

  // ---- the counts --------------------------------------------------------------------------------------

  /** The counts of the two semaphores of an open port, told by the book. */
  lemma CountsTold(s: Sys, b: Book, i: int)
    requires Inv(s) && BookOK(s, b) && IsOpen(b, i)
    ensures |s.ports| == NPORTS && 0 <= i < NPORTS && s.ports[i].state == Alloc
    ensures s.ports[i].ssem.valid == b.pages[i].senders && s.ports[i].rsem.valid == b.pages[i].receivers
    ensures s.ports[i].ssem.valid ==> s.ports[i].ssem.count == Room(b, i)
    ensures s.ports[i].rsem.valid ==> s.ports[i].rsem.count == Spare(b, i)
    ensures Held(b.pages[i]) == |s.ports[i].queue| && s.ports[i].queue == b.pages[i].sent[|b.pages[i].got|..]
  {
    hide Mid, NoDup, Queued, ClearsOK;
    PortFrom(s, i);
    assert PageOK(s.ports[i], b.pages[i]);
    CallersCounted(s, b, i, true);
    CallersCounted(s, b, i, false);
  }

  /** Whoever is inside a call in this era has been released or waits. */
  lemma CallersCounted(s: Sys, b: Book, i: int, send: bool)
    requires Inv(s) && b.stays == StaysOf(s.frames) && 0 <= i < |s.ports| == |b.pages|
    requires s.ports[i].state == Alloc && s.ports[i].epoch == b.pages[i].era
    ensures var P := s.ports[i];
            |Callers(b, i, send)| == |Granted(s.frames, i, P.epoch, send)| + |(if send then P.ssem else P.rsem).waiting|
  {
    hide Queued, NoDup, Accounts;
    var P := s.ports[i];
    var w := (if send then P.ssem else P.rsem).waiting;
    var g := Granted(s.frames, i, P.epoch, send);
    PortFrom(s, i);
    forall p
      ensures p in Callers(b, i, send) <==> p in g || p in Elems(w)
      ensures !(p in g && p in Elems(w))
    {
      if p in s.frames {
        assert FrameOK(s, p);
      }
    }
    assert Callers(b, i, send) == g + Elems(w) && g * Elems(w) == {};
    SetOfSeq(w);
  }

  /** ptcount, told by the book: the messages that nobody has been promised and the senders that wait,
      or minus the receivers that wait. */
  lemma CountTold(s: Sys, b: Book, i: int)
    requires Inv(s) && BookOK(s, b) && (CanSend(b, i) <==> IsOpen(b, i)) && (CanReceive(b, i) <==> IsOpen(b, i))
    ensures Count(s, i) == if !IsOpen(b, i) then SYSERR
                           else if Spare(b, i) < 0 then Spare(b, i)
                           else Spare(b, i) + if Room(b, i) < 0 then -Room(b, i) else 0
  {
    hide Inv, ClearsOK, Room, Spare;
    BadPortTold(s, b, i);
    if IsOpen(b, i) {
      CountsTold(s, b, i);
    }
  }

  lemma BadPortTold(s: Sys, b: Book, i: int)
    requires BookOK(s, b)
    ensures BadPort(s, i) <==> !IsOpen(b, i)
  {
    hide ClearsOK;
    if 0 <= i < NPORTS {
      assert PageOK(s.ports[i], b.pages[i]);
    }
  }

  // ---- frames and stays -----------------------------------------------------------------------------------

  lemma StayJoins(f: map<int, Frame>, p: int, v: Frame)
    ensures StaysOf(f[p := v]) == StaysOf(f)[p := StayOf(v)]
  {
  }

  lemma StayGoes(f: map<int, Frame>, p: int)
    ensures StaysOf(f - {p}) == StaysOf(f) - {p}
  {
  }

  /** To be released changes nothing about the call. */
  lemma StayGranted(f: map<int, Frame>, p: int)
    requires p in f && !f[p].Clearing?
    ensures StaysOf(Grant(f, p)) == StaysOf(f)
  {
  }

  lemma StaysWoken(f: map<int, Frame>, w: seq<int>)
    ensures StaysOf(WakeAll(f, w)) == StaysOf(f)
  {
    assert forall p :: p in f ==> StayOf(WakeAll(f, w)[p]) == StayOf(f[p]);
  }

  lemma PagesUpdate(ports: seq<Port>, pages: seq<Page>, i: int, P: Port, g: Page)
    requires PagesOK(ports, pages) && 0 <= i < NPORTS && PageOK(P, g)
    ensures PagesOK(ports[i := P], pages[i := g])
  {
  }

  lemma PageAt(s: Sys, b: Book, i: int)
    requires BookOK(s, b) && 0 <= i < NPORTS
    ensures |s.ports| == |b.pages| == NPORTS && PageOK(s.ports[i], b.pages[i])
  {
  }

  // ---- one event --------------------------------------------------------------------------------------------

  /** A message is accepted by port i. */
  lemma AcceptedBook(s: Sys, b: Book, i: int, msg: int)
    requires Mid(s, i, 1, 0) && 0 <= i < NPORTS && s.ports[i].state == Alloc && s.ports[i].ssem.valid && s.nodes > 0
    requires BookOK(s, b)
    ensures 0 <= i < |b.pages| && BookOK(Accepted(s, i, msg), Sent(b, i, msg))
  {
    hide Mid, ClearsOK, PagesOK;
    PageAt(s, b, i);
    PushMid(s, i, msg);
    var u := Pushed(s, i, msg);
    SignalRMid(u, i, 0);
    var t := SignalR(u, i);
    if u.ports[i].rsem.count < 0 {
      StayGranted(u.frames, u.ports[i].rsem.waiting[0]);
    }
    PagesUpdate(s.ports, b.pages, i, t.ports[i], b.pages[i].(sent := b.pages[i].sent + [msg]));
    assert t.ports == s.ports[i := t.ports[i]];
    SamePhases(b, Sent(b, i, msg));
  }

  lemma SamePhases(a: Book, b: Book)
    requires ClearsOK(a) && |a.pages| == |b.pages|
    requires forall p :: p in b.stays && b.stays[p].Clears? ==> p in a.stays && a.stays[p] == b.stays[p]
    requires forall i :: 0 <= i < |a.pages| ==> a.pages[i].phase == b.pages[i].phase
    ensures ClearsOK(b)
  {
  }

  /** The oldest message is taken from port i. */
  lemma TakenBook(s: Sys, b: Book, i: int)
    requires Mid(s, i, 0, 1) && 0 <= i < NPORTS && s.ports[i].state == Alloc && s.ports[i].rsem.valid && BookOK(s, b)
    ensures 0 <= i < |b.pages| && s.ports[i].queue != []
    ensures BookOK(Taken(s, i), Got(b, i, s.ports[i].queue[0]))
  {
    hide Mid, ClearsOK, PagesOK;
    PageAt(s, b, i);
    PopMid(s, i);
    var u := Popped(s, i);
    SignalSMid(u, i, 0);
    var t := SignalS(u, i);
    if u.ports[i].ssem.count < 0 {
      StayGranted(u.frames, u.ports[i].ssem.waiting[0]);
    }
    PagesUpdate(s.ports, b.pages, i, t.ports[i], b.pages[i].(got := b.pages[i].got + [s.ports[i].queue[0]]));
    assert t.ports == s.ports[i := t.ports[i]];
    SamePhases(b, Got(b, i, s.ports[i].queue[0]));
  }

  /** A count goes down because a process has not to wait. */
  lemma ClaimedBook(s: Sys, b: Book, i: int, P: Port)
    requires BookOK(s, b) && 0 <= i < NPORTS && |s.ports| == NPORTS
    requires P == s.ports[i].(ssem := P.ssem, rsem := P.rsem)
    requires P.ssem.valid == s.ports[i].ssem.valid && P.rsem.valid == s.ports[i].rsem.valid
    ensures BookOK(SetPort(s, i, P), b)
  {
    hide ClearsOK;
    PageAt(s, b, i);
    PagesUpdate(s.ports, b.pages, i, P, b.pages[i]);
    assert b.pages[i := b.pages[i]] == b.pages;
  }

  /** A process blocks in a call. */
  lemma BlockedBook(s: Sys, b: Book, p: int, i: int, f: Frame)
    requires BookOK(s, b) && 0 <= i < NPORTS && |s.ports| == NPORTS && !f.Clearing? && f.port == i
    ensures BookOK(Blocking(s, p, i, f), Enters(b, p, StayOf(f)))
  {
    hide ClearsOK, PagesOK;
    var t := Blocking(s, p, i, f);
    PageAt(s, b, i);
    StayJoins(s.frames, p, f);
    PagesUpdate(s.ports, b.pages, i, t.ports[i], b.pages[i]);
    assert b.pages[i := b.pages[i]] == b.pages;
    SamePhases(b, Enters(b, p, StayOf(f)));
  }

  /** A process leaves its call. */
  lemma LeftBook(s: Sys, b: Book, p: int)
    requires BookOK(s, b) && p in s.frames
    ensures BookOK(Left(s, p), Leaves(b, p)) && p in b.stays && b.stays[p] == StayOf(s.frames[p])
  {
    hide ClearsOK, PagesOK;
    StayGoes(s.frames, p);
    SamePhases(b, Leaves(b, p));
  }

  /** The check that a released process makes, told by the book. */
  lemma CheckTold(s: Sys, b: Book, p: int)
    requires Inv(s) && BookOK(s, b) && p in s.frames && !s.frames[p].Clearing?
    requires (FrameFacts(s, p); Timely(s, p))
    ensures 0 <= s.frames[p].port < |s.ports| == NPORTS && p in b.stays && b.stays[p] == StayOf(s.frames[p])
    ensures Current(s, p) <==> Unchanged(b, p)
  {
    hide Inv, ClearsOK;
    FrameFacts(s, p);
    CheckTells(s, p);
    PageAt(s, b, s.frames[p].port);
  }

  ghost predicate Keeps(s: Sys, b: Book, e: Event)
    requires Inv(s) && EventOK(s, e)
  {
    Tells(b, e, Answer(s, e)) && BookOK(Apply(s, e), Enter(b, e, Answer(s, e)))
  }

  lemma SendKeeps(s: Sys, b: Book, p: int, i: int, msg: int)
    requires Inv(s) && BookOK(s, b) && EventOK(s, Send(p, i, msg))
    ensures Keeps(s, b, Send(p, i, msg))
  {
    hide Mid, BookOK, Accepted, Room;
    BadPortTold(s, b, i);
    if !BadPort(s, i) {
      CountsTold(s, b, i);
      var P := s.ports[i];
      PageAt(s, b, i);
      if P.ssem.valid && P.ssem.count > 0 {
        ClaimMid(s, i);
        var c := P.(ssem := Claimed(P.ssem));
        ClaimedBook(s, b, i, c);
        AcceptedBook(SetPort(s, i, c), b, i, msg);
      } else if P.ssem.valid {
        BlockedBook(s, b, p, i, Sending(i, msg, P.seqno, P.epoch, false));
      }
    }
  }

  lemma SendRestKeeps(s: Sys, b: Book, p: int)
    requires Inv(s) && BookOK(s, b) && EventOK(s, SendRest(p))
    ensures Keeps(s, b, SendRest(p))
  {
    hide Mid, BookOK, Accepted;
    FrameFacts(s, p);
    CheckTold(s, b, p);
    CheckTells(s, p);
    LeftBook(s, b, p);
    LeftMid(s, p);
    if Current(s, p) {
      SlotThere(s, p);
      AcceptedBook(Left(s, p), Leaves(b, p), s.frames[p].port, s.frames[p].msg);
    }
  }

  lemma RecvKeeps(s: Sys, b: Book, p: int, i: int)
    requires Inv(s) && BookOK(s, b) && EventOK(s, Recv(p, i))
    ensures Keeps(s, b, Recv(p, i))
  {
    hide Mid, BookOK, PortSpec.Taken, Spare;
    BadPortTold(s, b, i);
    if !BadPort(s, i) {
      CountsTold(s, b, i);
      var P := s.ports[i];
      PageAt(s, b, i);
      if P.rsem.valid && P.rsem.count > 0 {
        ClaimRMid(s, i);
        var c := P.(rsem := Claimed(P.rsem));
        ClaimedBook(s, b, i, c);
        TakenBook(SetPort(s, i, c), b, i);
      } else if P.rsem.valid {
        BlockedBook(s, b, p, i, Receiving(i, P.seqno, P.epoch, false));
      }
    }
  }

  lemma RecvRestKeeps(s: Sys, b: Book, p: int)
    requires Inv(s) && BookOK(s, b) && EventOK(s, RecvRest(p))
    ensures Keeps(s, b, RecvRest(p))
  {
    hide Mid, BookOK, PortSpec.Taken;
    FrameFacts(s, p);
    CheckTold(s, b, p);
    CheckTells(s, p);
    LeftBook(s, b, p);
    LeftMid(s, p);
    if Current(s, p) {
      MessageThere(s, p);
      CountsTold(s, b, s.frames[p].port);
      TakenBook(Left(s, p), Leaves(b, p), s.frames[p].port);
    }
  }

  lemma CreateKeeps(s: Sys, b: Book, e: Event)
    requires Inv(s) && BookOK(s, b) && e.Create?
    ensures Keeps(s, b, e)
  {
    hide Mid, ClearsOK, PagesOK, FindPort, FirstFree;
    PortFrom(s, 0);
    Sizes(s);
    if e.count >= 0 {
      FindPortLaw(s.ports, s.nextid, NPORTS);
      SameFree(s, b);
      var i := FindPort(s.ports, s.nextid, NPORTS).0;
      if i != -1 {
        PageAt(s, b, i);
        var g := Page(Open, e.count, e.count, b.pages[i].era + 1, e.sOk, e.rOk, [], []);
        PagesUpdate(s.ports, b.pages, i, NewPort(s.ports[i], e.count, e.sOk, e.rOk), g);
        OtherPhase(b, Turn(b, i, g).(next := Wrapped(i + 1)), i);
      }
    }
  }

  lemma SameFree(s: Sys, b: Book)
    requires BookOK(s, b)
    ensures |s.ports| == |b.pages| == NPORTS && FreePorts(s.ports) == UnusedPages(b)
  {
    hide ClearsOK;
    forall i | 0 <= i < NPORTS
      ensures FreePorts(s.ports)[i] == UnusedPages(b)[i]
    {
      PageAt(s, b, i);
    }
  }

  /** A port that nobody clears may change its phase. */
  lemma OtherPhase(a: Book, b: Book, i: int)
    requires ClearsOK(a) && 0 <= i < |a.pages| == |b.pages| && (a.pages[i].phase == Unused || a.pages[i].phase == Open)
    requires forall p :: p in b.stays && b.stays[p].Clears? ==> p in a.stays && a.stays[p] == b.stays[p]
    requires forall j :: 0 <= j < |a.pages| && j != i ==> a.pages[j].phase == b.pages[j].phase
    ensures ClearsOK(b)
  {
  }

  lemma ShutKeeps(s: Sys, b: Book, p: int, i: int, keep: bool)
    requires Inv(s) && BookOK(s, b) && p !in s.frames && !BadPort(s, i)
    ensures IsOpen(b, i) && BookOK(ClearBegun(s, p, i, keep),
            Enters(Turn(b, i, Shut(b.pages[i], keep)), p, Clears(i, keep)))
  {
    hide Mid, ClearsOK, PagesOK;
    Sizes(s);
    BadPortTold(s, b, i);
    PageAt(s, b, i);
    ClearBegunInv(s, p, i, keep);
    var P, t := s.ports[i], ClearStart(s, p, i, keep);
    StaysWoken(s.frames, P.ssem.waiting);
    StayJoins(WakeAll(s.frames, P.ssem.waiting), p, Clearing(i, keep, false));
    PagesUpdate(s.ports, b.pages, i, ClearedPort(P, keep), Shut(b.pages[i], keep));
    var turned := Turn(b, i, Shut(b.pages[i], keep));
    OtherPhase(b, turned, i);
    assert ClearsOK(Enters(turned, p, Clears(i, keep))) by {
      OneMoreClears(turned, p, i, keep);
    }
  }

  lemma OneMoreClears(b: Book, p: int, i: int, keep: bool)
    requires ClearsOK(b) && 0 <= i < |b.pages| && b.pages[i].phase == if keep then Resetting else Deleting
    ensures ClearsOK(Enters(b, p, Clears(i, keep)))
  {
  }

  lemma SecondKeeps(s: Sys, b: Book, p: int)
    requires Inv(s) && BookOK(s, b) && EventOK(s, Second(p))
    ensures Keeps(s, b, Second(p))
  {
    hide Mid, ClearsOK, PagesOK;
    Sizes(s);
    ClearHalvedInv(s, p);
    var f := s.frames[p];
    var i := f.port;
    PageAt(s, b, i);
    ClearerTold(s, b, p);
    var P, t := s.ports[i], ClearMiddle(s, p);
    StaysWoken(s.frames, P.rsem.waiting);
    StayJoins(WakeAll(s.frames, P.rsem.waiting), p, f.(half := true));
    PagesUpdate(s.ports, b.pages, i, t.ports[i], b.pages[i]);
    assert b.pages[i := b.pages[i]] == b.pages;
    assert b.stays[p := StayOf(f)] == b.stays;
  }

  lemma ClearerTold(s: Sys, b: Book, p: int)
    requires BookOK(s, b) && p in s.frames && s.frames[p].Clearing?
    ensures p in b.stays && b.stays[p] == StayOf(s.frames[p]) && 0 <= s.frames[p].port < |b.pages|
    ensures b.pages[s.frames[p].port].phase == if s.frames[p].keep then Resetting else Deleting
  {
    hide PagesOK;
    assert b.stays[p].Clears?;
  }

  lemma ThirdKeeps(s: Sys, b: Book, p: int)
    requires Inv(s) && BookOK(s, b) && EventOK(s, Third(p))
    ensures Keeps(s, b, Third(p))
  {
    hide Mid, ClearsOK, PagesOK;
    Sizes(s);
    ClearEndedInv(s, p);
    var f := s.frames[p];
    var i := f.port;
    PageAt(s, b, i);
    ClearerTold(s, b, p);
    StayGoes(s.frames, p);
    var t := ClearFinish(s, p);
    PagesUpdate(s.ports, b.pages, i, t.ports[i], b.pages[i].(phase := if f.keep then Open else Unused));
    LastClearer(s, b, p, Enter(b, Third(p), Done(OK)));
  }

  lemma LastClearer(s: Sys, b: Book, p: int, c: Book)
    requires Inv(s) && BookOK(s, b) && p in s.frames && s.frames[p].Clearing?
    requires p in b.stays && b.stays[p] == StayOf(s.frames[p])
    requires 0 <= s.frames[p].port < |b.pages| == |c.pages| && c.stays == b.stays - {p}
    requires forall j :: 0 <= j < |b.pages| && j != s.frames[p].port ==> c.pages[j] == b.pages[j]
    ensures ClearsOK(c)
  {
    hide PagesOK, Queued;
    var i := s.frames[p].port;
    forall q | q in b.stays && b.stays[q].Clears? && q != p
      ensures b.stays[q].port != i
    {
      assert q in s.frames && s.frames[q].Clearing?;
    }
  }

  /** Every event is answered as the book says, and the book stays in step with the tables. */
  lemma Histories(s: Sys, e: Event, b: Book)
    requires Inv(s) && EventOK(s, e) && BookOK(s, b)
    ensures Tells(b, e, Answer(s, e)) && BookOK(Apply(s, e), Enter(b, e, Answer(s, e)))
  {
    hide Mid, BookOK, Enter, Tells, Apply, Answer;
    match e
    case Create(_, _, _) => CreateKeeps(s, b, e);
    case Send(p, i, msg) => SendKeeps(s, b, p, i, msg);
    case SendRest(p) => SendRestKeeps(s, b, p);
    case Recv(p, i) => RecvKeeps(s, b, p, i);
    case RecvRest(p) => RecvRestKeeps(s, b, p);
    case Reset(_, _) => ClearKeeps(s, b, e);
    case Delete(_, _) => ClearKeeps(s, b, e);
    case Second(p) => SecondKeeps(s, b, p);
    case Third(p) => ThirdKeeps(s, b, p);
  }

  lemma ClearKeeps(s: Sys, b: Book, e: Event)
    requires Inv(s) && EventOK(s, e) && BookOK(s, b) && (e.Reset? || e.Delete?)
    ensures Keeps(s, b, e)
  {
    hide Mid, BookOK, ClearBegun;
    BadPortTold(s, b, e.i);
    if !BadPort(s, e.i) {
      ShutKeeps(s, b, e.p, e.i, e.Reset?);
    }
  }

  // ---- runs ------------------------------------------------------------------------------------------------

  /** An event and what it was answered. */
  datatype Deed = Deed(event: Event, answer: Reply)

  ghost function Trace(s: Sys, es: seq<Event>): (tr: seq<Deed>)
    requires Inv(s) && RunOK(s, es)
    ensures |tr| == |es| && forall k :: 0 <= k < |es| ==> tr[k].event == es[k]
    decreases |es|
  {
    if es == [] then [] else [Deed(es[0], Answer(s, es[0]))] + Trace(Apply(s, es[0]), es[1..])
  }

  /** The book after a trace. */
  function BookOf(b: Book, tr: seq<Deed>): Book
    decreases |tr|
  {
    if tr == [] then b else BookOf(Enter(b, tr[0].event, tr[0].answer), tr[1..])
  }

  /** Over every run each event is answered as the book of the events and answers before it says, and
      the book is in step with the tables at the end. */
  lemma {:induction false} RunHistories(s: Sys, es: seq<Event>, b: Book)
    requires Inv(s) && RunOK(s, es) && BookOK(s, b)
    ensures BookOK(Run(s, es), BookOf(b, Trace(s, es)))
    ensures forall k :: 0 <= k < |es| ==> Tells(BookOf(b, Trace(s, es)[..k]), es[k], Trace(s, es)[k].answer)
    decreases |es|
  {
    hide Mid, BookOK, Enter, Tells, Apply, Answer, EventOK;
    if es == [] {
    } else {
      var t, rest := Apply(s, es[0]), es[1..];
      var c := Enter(b, es[0], Answer(s, es[0]));
      var tr, tail := Trace(s, es), Trace(t, rest);
      Histories(s, es[0], b);
      RunHistories(t, rest, c);
      assert tr[1..] == tail;
      forall k | 0 <= k < |es|
        ensures Tells(BookOf(b, tr[..k]), es[k], tr[k].answer)
      {
        if k == 0 {
          assert tr[..0] == [];
        } else {
          assert tr[..k][1..] == tail[..k - 1] && tr[..k][0] == tr[0];
          assert Tells(BookOf(c, tail[..k - 1]), rest[k - 1], tail[k - 1].answer);
        }
      }
    }
  }

  /** First in, first out: after any run from start-up, what an open port has delivered since it was
      last cleared is a prefix of what was sent to it, in the same order, each message being the one that
      the sender's call named; the rest is what the port holds, no more than it may. */
  lemma FirstInFirstOut(maxmsgs: nat, es: seq<Event>, i: int)
    requires (StartInv(maxmsgs); RunOK(Start(maxmsgs), es)) && 0 <= i < NPORTS
    ensures Inv(Start(maxmsgs)) && |Run(Start(maxmsgs), es).ports| == NPORTS
    ensures var P, b := Run(Start(maxmsgs), es).ports[i], BookOf(NewBook(), Trace(Start(maxmsgs), es));
            && |b.pages| == NPORTS && (P.state == Alloc <==> b.pages[i].phase == Open)
            && (P.state == Alloc ==>
                  var g := b.pages[i];
                  && |g.got| <= |g.sent| && g.got == g.sent[..|g.got|] && g.sent[|g.got|..] == P.queue
                  && (g.senders ==> Held(g) <= g.cap) && (!g.senders ==> Held(g) == 0))
  {
    hide Mid, Run, RunOK, BookOf, Trace, Start, NewBook, Queued, Accounts, ClearsOK, PagesOK;
    StartBook(maxmsgs);
    var s := Start(maxmsgs);
    RunHistories(s, es, NewBook());
    var t, b := Run(s, es), BookOf(NewBook(), Trace(s, es));
    PageAt(t, b, i);
    PortLaws(s, es, i);
  }
}
