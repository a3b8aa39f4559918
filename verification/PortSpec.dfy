// Ports as a state machine: a bounded first-in first-out channel between processes, built from
// two semaphores, which may be reset or deleted while processes are blocked in it or have been
// released and not yet run (include/ports.h, system/pt*.c).  A blocked call is a frame: what the
// process will find on its stack when it runs again.

module PortSpec {

  import opened Common

  const NPORTS := 30

  datatype PortState = Free | Limbo | Alloc

  /** A semaphore of a port: whether semcreate gave one, its count, and who waits. */
  datatype Sema = Sema(valid: bool, count: int, waiting: seq<int>)

  /** A port.  Beside the table entry: epoch is the number of times that the 32-bit sequence number
      has changed, cap the number of messages it may hold, queue what it holds, sent and got what
      has been accepted and delivered since it was created or last cleared. */
  datatype Port = Port(state: PortState, max: int, seqno: int, epoch: nat, ssem: Sema, rsem: Sema,
                       cap: int, queue: seq<int>, sent: seq<int>, got: seq<int>)

  /** A process inside a port call: blocked in wait or released from it, or between the steps of
      clearing a port.  It has copied the sequence number; epoch is what that stood for. */
  datatype Frame =
    | Sending(port: int, msg: int, seqno: int, epoch: nat, granted: bool)
    | Receiving(port: int, seqno: int, epoch: nat, granted: bool)
    | Clearing(port: int, keep: bool, half: bool)

  datatype Sys = Sys(ports: seq<Port>, frames: map<int, Frame>, nextid: int, nodes: int, pool: nat)

  // ---- the invariant -------------------------------------------------------------------------

  ghost predicate IsGranted(f: Frame, i: int, epoch: nat, send: bool)
  {
    !f.Clearing? && f.Sending? == send && f.port == i && f.epoch == epoch && f.granted
  }

  /** Released senders (or receivers) of port i that recorded the given epoch and have not yet run. */
  ghost function Granted(frames: map<int, Frame>, i: int, epoch: nat, send: bool): set<int>
  {
    set p | p in frames && IsGranted(frames[p], i, epoch, send)
  }

  /** Everybody on the semaphore is blocked in a call on port i, and once only. */
  ghost predicate WaitersOK(frames: map<int, Frame>, c: Sema, i: int, send: bool)
  {
    && NoDup(c.waiting) && (!c.valid ==> c.waiting == [] && c.count == 0)
    && forall k :: 0 <= k < |c.waiting| ==>
         c.waiting[k] in frames && !frames[c.waiting[k]].Clearing? && frames[c.waiting[k]].Sending? == send
         && frames[c.waiting[k]].port == i && !frames[c.waiting[k]].granted
  }

  /** Free slots, slots promised to released senders, ds slots in hand, and messages make up the
      capacity; messages promised to released receivers, dr in hand, and those not promised make up
      the queue; what was sent is what was delivered followed by what is queued. */
  ghost predicate Accounts(frames: map<int, Frame>, P: Port, i: int, ds: nat, dr: nat)
  {
    && Matches(P.ssem.count, P.ssem.waiting) && Matches(P.rsem.count, P.rsem.waiting)
    && (if P.ssem.valid then Max0(P.ssem.count) + |Granted(frames, i, P.epoch, true)| + ds + |P.queue| == P.cap
       else P.queue == [])
    && (P.rsem.valid ==> Max0(P.rsem.count) + |Granted(frames, i, P.epoch, false)| + dr == |P.queue|)
    && P.sent == P.got + P.queue
  }

  /** What every port satisfies whatever its state. */
  ghost predicate Basics(frames: map<int, Frame>, P: Port, i: int)
  {
    && P.seqno == P.epoch % WORD && 0 <= P.max && 0 <= P.cap
    && WaitersOK(frames, P.ssem, i, true) && WaitersOK(frames, P.rsem, i, false)
    && (P.state != Alloc ==> P.queue == [] && P.sent == [] && P.got == [] && P.ssem.waiting == [])
    && (P.state == Free ==> P.rsem.waiting == [])
  }

  ghost predicate PortOK(s: Sys, i: int, ds: nat, dr: nat)
    requires 0 <= i < |s.ports|
  {
    Basics(s.frames, s.ports[i], i) && (s.ports[i].state == Alloc ==> Accounts(s.frames, s.ports[i], i, ds, dr))
  }

  /** A frame belongs to a port, to no later epoch than the port's, and to an earlier one unless the
      port is allocated; if it is not released it waits, in the current epoch if the port is allocated. */
  ghost predicate FrameOK(s: Sys, p: int)
    requires p in s.frames
  {
    var f := s.frames[p];
    && 0 <= f.port < |s.ports|
    && var P := s.ports[f.port];
       match f
       case Clearing(i, keep, half) =>
         && P.state == Limbo
         && (keep ==> P.cap == P.max && (P.ssem.valid ==> P.ssem.count == P.max))
         && (half ==> P.rsem.waiting == [] && P.rsem.count == 0)
       case _ =>
         && f.seqno == f.epoch % WORD && f.epoch <= P.epoch && (P.state != Alloc ==> f.epoch < P.epoch)
         && (!f.granted ==> p in (if f.Sending? then P.ssem else P.rsem).waiting)
         && (!f.granted && P.state == Alloc ==> f.epoch == P.epoch)
         && (f.epoch == P.epoch ==> (if f.Sending? then P.ssem else P.rsem).valid)
  }

  ghost predicate OneClearer(s: Sys)
  {
    forall p, q ::
      p in s.frames && q in s.frames && s.frames[p].Clearing? && s.frames[q].Clearing? &&
      s.frames[p].port == s.frames[q].port ==>
        p == q
  }

  /** The messages on the first n ports. */
  ghost function Queued(ports: seq<Port>, n: nat): nat
    requires n <= |ports|
  {
    if n == 0 then 0 else Queued(ports, n - 1) + |ports[n - 1].queue|
  }

  /** The invariant inside a step on port x, with ds slots and dr messages in hand. */
  ghost predicate Mid(s: Sys, x: int, ds: nat, dr: nat)
  {
    && |s.ports| == NPORTS && 0 <= s.nextid < NPORTS
    && (forall i :: 0 <= i < NPORTS && i != x ==> PortOK(s, i, 0, 0))
    && (0 <= x < NPORTS ==> PortOK(s, x, ds, dr))
    && (forall p :: p in s.frames ==> FrameOK(s, p))
    && OneClearer(s)
    && s.nodes >= 0 && s.nodes + Queued(s.ports, NPORTS) == s.pool
  }

  ghost predicate Inv(s: Sys)
  {
    Mid(s, 0, 0, 0)
  }

  // ---- the steps -----------------------------------------------------------------------------------

  predicate BadPort(s: Sys, i: int)
  {
    i < 0 || i >= |s.ports| || s.ports[i].state != Alloc
  }

  /** What a step returns to its caller, or that the caller is blocked. */
  datatype Reply = Done(value: int) | Blocked

  /** A blocked process is released. */
  function Wake(f: Frame): Frame
    requires !f.Clearing?
  {
    match f
    case Sending(i, msg, seqno, epoch, _) => Sending(i, msg, seqno, epoch, true)
    case Receiving(i, seqno, epoch, _) => Receiving(i, seqno, epoch, true)
  }

  function Grant(frames: map<int, Frame>, p: int): map<int, Frame>
    requires p in frames && !frames[p].Clearing?
  {
    frames[p := Wake(frames[p])]
  }

  function SetPort(s: Sys, i: int, P: Port): Sys
    requires 0 <= i < |s.ports|
  {
    s.(ports := s.ports[i := P])
  }

  // What wait, signal, semreset and semdelete do to a semaphore; PortSemaphores ties this to the kernel's.

  /** wait, with no need to block. */
  function Claimed(c: Sema): Sema { c.(count := c.count - 1) }

  /** wait by process p, blocking. */
  function Joined(c: Sema, p: int): Sema { c.(count := c.count - 1, waiting := c.waiting + [p]) }

  function Signalled(c: Sema): Sema
    requires c.count < 0 ==> c.waiting != []
  {
    if !c.valid then c else if c.count < 0 then c.(count := c.count + 1, waiting := c.waiting[1..])
       else c.(count := c.count + 1)
  }

  /** semreset to a count of n, or semdelete. */
  function Vacated(c: Sema, keep: bool, n: int): Sema
  {
    if !c.valid then c else if keep then Sema(true, n, []) else Sema(false, 0, [])
  }

  /** signal on the receivers' semaphore. */
  function SignalR(s: Sys, i: int): Sys
    requires 0 <= i < |s.ports|
    requires s.ports[i].rsem.count < 0 ==>
             s.ports[i].rsem.waiting != [] && s.ports[i].rsem.waiting[0] in s.frames
                 && !s.frames[s.ports[i].rsem.waiting[0]].Clearing?
  {
    var P := s.ports[i];
    var c := P.rsem;
    if !c.valid then s
    else if c.count < 0 then SetPort(s, i, P.(rsem := Signalled(c))).(frames := Grant(s.frames, c.waiting[0]))
    else SetPort(s, i, P.(rsem := Signalled(c)))
  }

  /** signal on the senders' semaphore. */
  function SignalS(s: Sys, i: int): Sys
    requires 0 <= i < |s.ports|
    requires s.ports[i].ssem.count < 0 ==>
             s.ports[i].ssem.waiting != [] && s.ports[i].ssem.waiting[0] in s.frames
                 && !s.frames[s.ports[i].ssem.waiting[0]].Clearing?
  {
    var P := s.ports[i];
    var c := P.ssem;
    if !c.valid then s
    else if c.count < 0 then SetPort(s, i, P.(ssem := Signalled(c))).(frames := Grant(s.frames, c.waiting[0]))
    else SetPort(s, i, P.(ssem := Signalled(c)))
  }

  // ---- framing ---------------------------------------------------------------------------------------

  /** The frames in calls on other ports than i are the same. */
  ghost predicate OnlyPort(f: map<int, Frame>, g: map<int, Frame>, i: int)
  {
    && (forall p :: p in f && f[p].port != i ==> p in g && g[p] == f[p])
    && (forall p :: p in g && g[p].port != i ==> p in f && f[p] == g[p])
  }

  lemma OtherPort(f: map<int, Frame>, g: map<int, Frame>, P: Port, i: int, j: int)
    requires OnlyPort(f, g, i) && i != j && Basics(f, P, j)
    ensures Basics(g, P, j) && (Accounts(f, P, j, 0, 0) ==> Accounts(g, P, j, 0, 0))
  {
    OtherWaiters(f, g, P.ssem, i, j, true);
    OtherWaiters(f, g, P.rsem, i, j, false);
    OtherGranted(f, g, i, j, P.epoch, true);
    OtherGranted(f, g, i, j, P.epoch, false);
  }

  lemma OtherWaiters(f: map<int, Frame>, g: map<int, Frame>, c: Sema, i: int, j: int, send: bool)
    requires OnlyPort(f, g, i) && i != j && WaitersOK(f, c, j, send)
    ensures WaitersOK(g, c, j, send)
  {
  }

  lemma OtherGranted(f: map<int, Frame>, g: map<int, Frame>, i: int, j: int, epoch: nat, send: bool)
    requires OnlyPort(f, g, i) && i != j
    ensures Granted(g, j, epoch, send) == Granted(f, j, epoch, send)
  {
    forall p
      ensures p in Granted(g, j, epoch, send) <==> p in Granted(f, j, epoch, send)
    {
    }
  }

  lemma {:induction false} QueuedUpdate(ports: seq<Port>, i: int, P: Port, n: nat)
    requires n <= |ports| && 0 <= i < |ports|
    ensures Queued(ports[i := P], n) == Queued(ports, n) + if i < n then |P.queue| - |ports[i].queue| else 0
    decreases n
  {
    if n == 0 {
    } else {
      QueuedUpdate(ports, i, P, n - 1);
    }
  }

  /** A step that changes port i, and frames of port i only. */
  lemma StepMid(s: Sys, t: Sys, i: int, ds: nat, dr: nat, ds': nat, dr': nat)
    requires Mid(s, i, ds, dr) && 0 <= i < NPORTS && |t.ports| == NPORTS && 0 <= t.nextid < NPORTS && t.pool == s.pool
    requires t.ports == s.ports[i := t.ports[i]] && OnlyPort(s.frames, t.frames, i)
    requires PortOK(t, i, ds', dr')
    requires forall p :: p in t.frames && t.frames[p].port == i ==> FrameOK(t, p)
    requires OneClearer(t)
    requires t.nodes >= 0 && t.nodes + |t.ports[i].queue| == s.nodes + |s.ports[i].queue|
    ensures Mid(t, i, ds', dr')
  {
    hide Basics, Accounts, OneClearer, Queued;
    forall j | 0 <= j < NPORTS && j != i
      ensures PortOK(t, j, 0, 0)
    {
      assert PortOK(s, j, 0, 0);
      OtherPort(s.frames, t.frames, s.ports[j], i, j);
    }
    forall p | p in t.frames
      ensures FrameOK(t, p)
    {
      if t.frames[p].port != i {
        assert FrameOK(s, p);
      }
    }
    QueuedUpdate(s.ports, i, t.ports[i], NPORTS);
  }

  // ---- sets of released processes -------------------------------------------------------------------

  /** A released frame of the epoch is added or comes to be released: one more. */
  lemma GrantedAdd(f: map<int, Frame>, p: int, v: Frame, i: int, epoch: nat, send: bool)
    requires p in f ==> !IsGranted(f[p], i, epoch, send)
    ensures |Granted(f[p := v], i, epoch, send)|
            == |Granted(f, i, epoch, send)| + if IsGranted(v, i, epoch, send) then 1 else 0
  {
    var g := f[p := v];
    if IsGranted(v, i, epoch, send) {
      assert Granted(g, i, epoch, send) == Granted(f, i, epoch, send) + {p};
    } else {
      assert Granted(g, i, epoch, send) == Granted(f, i, epoch, send);
    }
  }

  /** A frame goes away. */
  lemma GrantedRemove(f: map<int, Frame>, p: int, i: int, epoch: nat, send: bool)
    requires p in f
    ensures |Granted(f - {p}, i, epoch, send)|
            == |Granted(f, i, epoch, send)| - if IsGranted(f[p], i, epoch, send) then 1 else 0
  {
    if IsGranted(f[p], i, epoch, send) {
      assert p in Granted(f, i, epoch, send);
      assert Granted(f - {p}, i, epoch, send) == Granted(f, i, epoch, send) - {p};
    } else {
      assert Granted(f - {p}, i, epoch, send) == Granted(f, i, epoch, send);
    }
  }

  lemma GrantedNone(f: map<int, Frame>, i: int, epoch: nat, send: bool)
    requires forall p :: p in f && !f[p].Clearing? && f[p].port == i ==> f[p].epoch != epoch
    ensures Granted(f, i, epoch, send) == {}
  {
    forall p
      ensures p !in Granted(f, i, epoch, send)
    {
    }
  }

  // ---- signalling ----------------------------------------------------------------------------------

  lemma WaitersGrant(f: map<int, Frame>, c: Sema, i: int, send: bool)
    requires WaitersOK(f, c, i, send) && c.waiting != [] && c.count < 0
    ensures c.waiting[0] in f && !f[c.waiting[0]].Clearing?
    ensures WaitersOK(Grant(f, c.waiting[0]), Signalled(c), i, send)
  {
  }

  /** The waiters of the other semaphore of the port are not touched. */
  lemma WaitersOther(f: map<int, Frame>, c: Sema, i: int, send: bool, p: int, v: Frame)
    requires WaitersOK(f, c, i, send) && p in f && (f[p].Clearing? || f[p].Sending? != send || f[p].granted)
    ensures WaitersOK(f[p := v], c, i, send)
  {
  }

  lemma SignalRMid(s: Sys, i: int, ds: nat)
    requires Mid(s, i, ds, 1) && 0 <= i < NPORTS && s.ports[i].state == Alloc
    ensures var c := s.ports[i].rsem;
            c.count < 0 ==> c.waiting != [] && c.waiting[0] in s.frames && !s.frames[c.waiting[0]].Clearing?
    ensures Mid(SignalR(s, i), i, ds, 0)
  {
    hide Granted, NoDup, Queued;
    var P := s.ports[i];
    assert PortOK(s, i, ds, 1);
    var t := SignalR(s, i);
    if P.rsem.valid {
      if P.rsem.count < 0 {
        var w := P.rsem.waiting[0];
        WaitersGrant(s.frames, P.rsem, i, false);
        WaitersOther(s.frames, P.ssem, i, true, w, Wake(s.frames[w]));
        assert FrameOK(s, w);
        GrantedAdd(s.frames, w, Wake(s.frames[w]), i, P.epoch, true);
        GrantedAdd(s.frames, w, Wake(s.frames[w]), i, P.epoch, false);
        ReleasedFrames(s, t, i, w);
      } else {
        SameFrames(s, t, i);
      }
      StepMid(s, t, i, ds, 1, ds, 0);
    } else {
      SameFrames(s, t, i);
      StepMid(s, t, i, ds, 1, ds, 0);
    }
  }

  /** Frames of port i when nothing about them changes. */
  lemma SameFrames(s: Sys, t: Sys, i: int)
    requires |s.ports| == |t.ports| == NPORTS && 0 <= i < NPORTS && t.frames == s.frames && OneClearer(s)
    requires forall p :: p in s.frames ==> FrameOK(s, p)
    requires var P, Q := s.ports[i], t.ports[i];
             && Q.state == P.state && Q.epoch == P.epoch && Q.ssem.valid == P.ssem.valid && Q.rsem.valid == P.rsem.valid
                && Q.ssem.waiting == P.ssem.waiting && Q.rsem.waiting == P.rsem.waiting
             && (P.state == Limbo ==> Q == P)
    ensures OneClearer(t) && forall p :: p in t.frames && t.frames[p].port == i ==> FrameOK(t, p)
  {
    forall p | p in t.frames && t.frames[p].port == i
      ensures FrameOK(t, p)
    {
      assert FrameOK(s, p);
    }
  }

  /** The first on a semaphore of port i is released: the others stay on it. */
  lemma ReleasedFrames(s: Sys, t: Sys, i: int, w: int)
    requires |s.ports| == |t.ports| == NPORTS && 0 <= i < NPORTS && w in s.frames && !s.frames[w].Clearing?
             && OneClearer(s)
    requires t.frames == s.frames[w := Wake(s.frames[w])] && s.frames[w].port == i
    requires forall p :: p in s.frames ==> FrameOK(s, p)
    requires var P, Q := s.ports[i], t.ports[i];
             && P.state == Alloc && Q.state == Alloc && Q.epoch == P.epoch && Q.ssem.valid == P.ssem.valid
                && Q.rsem.valid == P.rsem.valid
             && (forall p :: p in P.ssem.waiting && p != w ==> p in Q.ssem.waiting)
             && (forall p :: p in P.rsem.waiting && p != w ==> p in Q.rsem.waiting)
    ensures OneClearer(t) && forall p :: p in t.frames && t.frames[p].port == i ==> FrameOK(t, p)
  {
    forall p | p in t.frames && t.frames[p].port == i
      ensures FrameOK(t, p)
    {
      assert FrameOK(s, p);
    }
    forall p, q | p in t.frames && q in t.frames && t.frames[p].Clearing? && t.frames[q].Clearing?
        && t.frames[p].port == t.frames[q].port
      ensures p == q
    {
      assert p in s.frames && q in s.frames;
    }
  }

  lemma SignalSMid(s: Sys, i: int, dr: nat)
    requires Mid(s, i, 1, dr) && 0 <= i < NPORTS && s.ports[i].state == Alloc
    ensures var c := s.ports[i].ssem;
            c.count < 0 ==> c.waiting != [] && c.waiting[0] in s.frames && !s.frames[c.waiting[0]].Clearing?
    ensures Mid(SignalS(s, i), i, 0, dr)
  {
    hide Granted, NoDup, Queued;
    var P := s.ports[i];
    assert PortOK(s, i, 1, dr);
    var t := SignalS(s, i);
    if P.ssem.valid {
      if P.ssem.count < 0 {
        var w := P.ssem.waiting[0];
        WaitersGrant(s.frames, P.ssem, i, true);
        WaitersOther(s.frames, P.rsem, i, false, w, Wake(s.frames[w]));
        assert FrameOK(s, w);
        GrantedAdd(s.frames, w, Wake(s.frames[w]), i, P.epoch, true);
        GrantedAdd(s.frames, w, Wake(s.frames[w]), i, P.epoch, false);
        ReleasedFrames(s, t, i, w);
      } else {
        SameFrames(s, t, i);
      }
      StepMid(s, t, i, 1, dr, 0, dr);
    } else {
      SameFrames(s, t, i);
      StepMid(s, t, i, 1, dr, 0, dr);
    }
  }

  // ---- sending and receiving ---------------------------------------------------------------------------

  /** A message joins the queue of port i. */
  function Pushed(s: Sys, i: int, msg: int): Sys
    requires 0 <= i < |s.ports|
  {
    var P := s.ports[i];
    SetPort(s, i, P.(queue := P.queue + [msg], sent := P.sent + [msg])).(nodes := s.nodes - 1)
  }

  /** The first message leaves it. */
  function Popped(s: Sys, i: int): Sys
    requires 0 <= i < |s.ports| && s.ports[i].queue != []
  {
    var P := s.ports[i];
    SetPort(s, i, P.(queue := P.queue[1..], got := P.got + [P.queue[0]])).(nodes := s.nodes + 1)
  }

  lemma PushMid(s: Sys, i: int, msg: int)
    requires Mid(s, i, 1, 0) && 0 <= i < NPORTS && s.ports[i].state == Alloc && s.ports[i].ssem.valid && s.nodes > 0
    ensures Mid(Pushed(s, i, msg), i, 0, 1)
  {
    hide Granted, NoDup, Queued;
    var t := Pushed(s, i, msg);
    SameFrames(s, t, i);
    assert PortOK(s, i, 1, 0);
    assert s.ports[i].got + (s.ports[i].queue + [msg]) == (s.ports[i].got + s.ports[i].queue) + [msg];
    StepMid(s, t, i, 1, 0, 0, 1);
  }

  lemma PopMid(s: Sys, i: int)
    requires Mid(s, i, 0, 1) && 0 <= i < NPORTS && s.ports[i].state == Alloc && s.ports[i].rsem.valid
    ensures s.ports[i].queue != [] && Mid(Popped(s, i), i, 1, 0)
  {
    hide Granted, NoDup, Queued;
    assert PortOK(s, i, 0, 1);
    var P := s.ports[i];
    var t := Popped(s, i);
    SameFrames(s, t, i);
    assert P.got + P.queue == (P.got + [P.queue[0]]) + P.queue[1..];
    StepMid(s, t, i, 0, 1, 1, 0);
  }

  /** Process p leaves its frame. */
  function Left(s: Sys, p: int): Sys
  {
    s.(frames := s.frames - {p})
  }

  lemma LeftMid(s: Sys, p: int)
    requires Inv(s) && p in s.frames && !s.frames[p].Clearing? && s.frames[p].granted
    ensures var f := s.frames[p];
            var now := f.epoch == s.ports[f.port].epoch;
            Mid(Left(s, p), f.port, if now && f.Sending? then 1 else 0, if now && f.Receiving? then 1 else 0)
  {
    hide Granted, NoDup, Queued;
    var f := s.frames[p];
    assert FrameOK(s, p);
    var i, P := f.port, s.ports[f.port];
    var t := Left(s, p);
    var ds := if f.epoch == P.epoch && f.Sending? then 1 else 0;
    var dr := if f.epoch == P.epoch && f.Receiving? then 1 else 0;
    PortFrom(s, i);
    WaitersLeave(s.frames, P.ssem, i, true, p);
    WaitersLeave(s.frames, P.rsem, i, false, p);
    GrantedRemove(s.frames, p, i, P.epoch, true);
    GrantedRemove(s.frames, p, i, P.epoch, false);
    FewerFrames(s, t, i);
    StepMid(s, t, i, 0, 0, ds, dr);
  }

  lemma PortFrom(s: Sys, i: int)
    requires Inv(s) && 0 <= i < NPORTS
    ensures PortOK(s, i, 0, 0) && Mid(s, i, 0, 0)
  {
    hide Basics, Accounts, Queued;
    assert PortOK(s, 0, 0, 0);
  }

  lemma Sizes(s: Sys)
    requires Inv(s)
    ensures |s.ports| == NPORTS && 0 <= s.nextid < NPORTS
  {
  }

  lemma MidInv(s: Sys, i: int)
    requires Mid(s, i, 0, 0) && 0 <= i < NPORTS
    ensures Inv(s)
  {
    hide Basics, Accounts, Queued;
  }

  lemma WaitersLeave(f: map<int, Frame>, c: Sema, i: int, send: bool, p: int)
    requires WaitersOK(f, c, i, send) && p in f && (f[p].Clearing? || f[p].granted)
    ensures WaitersOK(f - {p}, c, i, send)
  {
  }

  /** Frames of port i when one goes away. */
  lemma FewerFrames(s: Sys, t: Sys, i: int)
    requires |s.ports| == |t.ports| == NPORTS && 0 <= i < NPORTS && t.ports == s.ports && OneClearer(s)
    requires forall p :: p in t.frames ==> p in s.frames && t.frames[p] == s.frames[p]
    requires forall p :: p in s.frames ==> FrameOK(s, p)
    ensures OneClearer(t) && forall p :: p in t.frames && t.frames[p].port == i ==> FrameOK(t, p)
  {
    forall p | p in t.frames && t.frames[p].port == i
      ensures FrameOK(t, p)
    {
      assert FrameOK(s, p);
    }
  }

  /** What ptsend does once it has a slot. */
  ghost function Accepted(s: Sys, i: int, msg: int): (t: Sys)
    requires Mid(s, i, 1, 0) && 0 <= i < NPORTS && s.ports[i].state == Alloc && s.ports[i].ssem.valid && s.nodes > 0
    ensures Inv(t)
  {
    PushMid(s, i, msg);
    SignalRMid(Pushed(s, i, msg), i, 0);
    MidInv(SignalR(Pushed(s, i, msg), i), i);
    SignalR(Pushed(s, i, msg), i)
  }

  /** What ptrecv does once it has been promised a message. */
  ghost function Taken(s: Sys, i: int): (t: Sys)
    requires Mid(s, i, 0, 1) && 0 <= i < NPORTS && s.ports[i].state == Alloc && s.ports[i].rsem.valid
    ensures Inv(t)
  {
    PopMid(s, i);
    SignalSMid(Popped(s, i), i, 0);
    MidInv(SignalS(Popped(s, i), i), i);
    SignalS(Popped(s, i), i)
  }

  // ---- the calls --------------------------------------------------------------------------------------

  /** ptsend up to wait (system/ptsend.c:20-33) and, if it does not block, to the end. */
  ghost function SendBegun(s: Sys, p: int, i: int, msg: int): (t: Sys)
    requires Inv(s) && p !in s.frames
    requires !BadPort(s, i) && s.ports[i].ssem.valid && s.ports[i].ssem.count > 0 ==> s.nodes > 0
    ensures Inv(t)
  {
    if BadPort(s, i) || !s.ports[i].ssem.valid then s
    else
      var P := s.ports[i];
      if P.ssem.count > 0 then
        ClaimMid(s, i);
        Accepted(SetPort(s, i, P.(ssem := Claimed(P.ssem))), i, msg)
      else
        BlockMid(s, p, i, Sending(i, msg, P.seqno, P.epoch, false));
        Blocking(s, p, i, Sending(i, msg, P.seqno, P.epoch, false))
  }

  lemma ClaimMid(s: Sys, i: int)
    requires Inv(s) && !BadPort(s, i) && s.ports[i].ssem.valid && s.ports[i].ssem.count > 0
    ensures var P := s.ports[i]; Mid(SetPort(s, i, P.(ssem := Claimed(P.ssem))), i, 1, 0)
  {
    hide Granted, NoDup, Queued;
    var P := s.ports[i];
    PortFrom(s, i);
    var t := SetPort(s, i, P.(ssem := Claimed(P.ssem)));
    SameFrames(s, t, i);
    StepMid(s, t, i, 0, 0, 1, 0);
  }

  /** A process goes to the end of a semaphore's queue. */
  function Blocking(s: Sys, p: int, i: int, f: Frame): Sys
    requires 0 <= i < |s.ports|
  {
    var P := s.ports[i];
    var Q := if f.Sending? then P.(ssem := Joined(P.ssem, p))
             else P.(rsem := Joined(P.rsem, p));
    SetPort(s, i, Q).(frames := s.frames[p := f])
  }

  lemma BlockMid(s: Sys, p: int, i: int, f: Frame)
    requires Inv(s) && p !in s.frames && !BadPort(s, i) && !f.Clearing? && f.port == i && !f.granted
    requires f.seqno == s.ports[i].seqno && f.epoch == s.ports[i].epoch
    requires var c := if f.Sending? then s.ports[i].ssem else s.ports[i].rsem; c.valid && c.count <= 0
    ensures Inv(Blocking(s, p, i, f))
  {
    hide Granted, NoDup, Queued;
    var P := s.ports[i];
    PortFrom(s, i);
    var t := Blocking(s, p, i, f);
    WaitersJoin(s.frames, P.ssem, i, true, p, f);
    WaitersJoin(s.frames, P.rsem, i, false, p, f);
    GrantedAdd(s.frames, p, f, i, P.epoch, true);
    GrantedAdd(s.frames, p, f, i, P.epoch, false);
    BlockedFrames(s, t, i, p, f);
    StepMid(s, t, i, 0, 0, 0, 0);
    MidInv(t, i);
  }

  lemma WaitersJoin(f: map<int, Frame>, c: Sema, i: int, send: bool, p: int, v: Frame)
    requires WaitersOK(f, c, i, send) && p !in f && !v.Clearing? && v.port == i && !v.granted
    ensures WaitersOK(f[p := v], c, i, send)
    ensures v.Sending? == send && c.valid ==> WaitersOK(f[p := v], Joined(c, p), i, send)
  {
  }

  /** Frames of port i when a blocked one joins. */
  lemma BlockedFrames(s: Sys, t: Sys, i: int, p: int, f: Frame)
    requires |s.ports| == NPORTS && 0 <= i < NPORTS && t == Blocking(s, p, i, f) && OneClearer(s) && p !in s.frames
    requires (if f.Sending? then s.ports[i].ssem else s.ports[i].rsem).valid
    requires !f.Clearing? && f.port == i && !f.granted && s.ports[i].state == Alloc && f.seqno == f.epoch % WORD
             && f.epoch == s.ports[i].epoch
    requires forall x :: x in s.frames ==> FrameOK(s, x)
    ensures OneClearer(t) && forall x :: x in t.frames && t.frames[x].port == i ==> FrameOK(t, x)
  {
    forall x | x in t.frames && t.frames[x].port == i
      ensures FrameOK(t, x)
    {
      if x != p {
        assert FrameOK(s, x);
      } else {
        var w := (if f.Sending? then t.ports[i].ssem else t.ports[i].rsem).waiting;
        assert w[|w| - 1] == p;
      }
    }
    forall x, y | x in t.frames && y in t.frames && t.frames[x].Clearing? && t.frames[y].Clearing?
        && t.frames[x].port == t.frames[y].port
      ensures x == y
    {
      assert x in s.frames && y in s.frames;
    }
  }

  /** The check that a process makes after wait: is the port as it was? (system/ptsend.c:29-32,
      system/ptrecv.c:28-30) */
  predicate Current(s: Sys, p: int)
    requires p in s.frames && !s.frames[p].Clearing? && 0 <= s.frames[p].port < |s.ports|
  {
    s.ports[s.frames[p].port].state == Alloc && s.ports[s.frames[p].port].seqno == s.frames[p].seqno
  }

  /** The sequence number has not come round to the recorded value again. */
  predicate Timely(s: Sys, p: int)
    requires p in s.frames && !s.frames[p].Clearing? && 0 <= s.frames[p].port < |s.ports|
  {
    s.ports[s.frames[p].port].epoch - s.frames[p].epoch < WORD
  }

  lemma FrameFacts(s: Sys, p: int)
    requires Inv(s) && p in s.frames && !s.frames[p].Clearing?
    ensures 0 <= s.frames[p].port < |s.ports| == NPORTS
    ensures s.ports[s.frames[p].port].seqno == s.ports[s.frames[p].port].epoch % WORD
            && s.frames[p].seqno == s.frames[p].epoch % WORD
    ensures s.frames[p].epoch <= s.ports[s.frames[p].port].epoch
    ensures s.ports[s.frames[p].port].state != Alloc ==> s.frames[p].epoch < s.ports[s.frames[p].port].epoch
  {
    assert FrameOK(s, p);
    PortFrom(s, s.frames[p].port);
  }

  /** The check finds out whether the port was cleared since, as long as the 32-bit sequence number
      has not been through all its values; it fails to exactly when it has come round. */
  lemma CheckTells(s: Sys, p: int)
    requires Inv(s) && p in s.frames && !s.frames[p].Clearing?
    ensures 0 <= s.frames[p].port < |s.ports|
    ensures var P := s.ports[s.frames[p].port];
            Current(s, p) <==> P.state == Alloc && (P.epoch - s.frames[p].epoch) % WORD == 0
    ensures var P := s.ports[s.frames[p].port];
            Timely(s, p) ==> (Current(s, p) <==> P.epoch == s.frames[p].epoch)
  {
    hide Inv;
    FrameFacts(s, p);
    var P := s.ports[s.frames[p].port];
    SameResidue(P.epoch, s.frames[p].epoch);
    if P.epoch == s.frames[p].epoch {
      assert P.state == Alloc;
    }
  }

  lemma SameResidue(a: int, b: int)
    ensures a % WORD == b % WORD <==> (a - b) % WORD == 0
    ensures 0 <= a - b < WORD && (a - b) % WORD == 0 ==> a == b
  {
  }

  /** ptsend after wait has returned to a process that was blocked. */
  ghost function SendResumed(s: Sys, p: int): (t: Sys)
    requires Inv(s) && p in s.frames && s.frames[p].Sending? && s.frames[p].granted
    requires (FrameFacts(s, p); Timely(s, p) && (Current(s, p) ==> s.nodes > 0))
    ensures Inv(t)
  {
    FrameFacts(s, p);
    CheckTells(s, p);
    LeftMid(s, p);
    if Current(s, p) then
      SlotThere(s, p);
      Accepted(Left(s, p), s.frames[p].port, s.frames[p].msg)
    else
      MidInv(Left(s, p), s.frames[p].port);
      Left(s, p)
  }

  /** A process that passes the check after waiting to send finds a slot. */
  lemma SlotThere(s: Sys, p: int)
    requires Inv(s) && p in s.frames && s.frames[p].Sending? && s.frames[p].granted
    requires (FrameFacts(s, p); s.ports[s.frames[p].port].epoch == s.frames[p].epoch)
    ensures var P := s.ports[s.frames[p].port]; P.state == Alloc && P.ssem.valid && |P.queue| < P.cap
  {
    hide Queued, NoDup;
    FrameFacts(s, p);
    var i := s.frames[p].port;
    PortFrom(s, i);
    assert p in Granted(s.frames, i, s.ports[i].epoch, true);
    assert FrameOK(s, p);
  }

  /** A process that passes the check after waiting to receive finds a message. */
  lemma MessageThere(s: Sys, p: int)
    requires Inv(s) && p in s.frames && s.frames[p].Receiving? && s.frames[p].granted
    requires (FrameFacts(s, p); s.ports[s.frames[p].port].epoch == s.frames[p].epoch)
    ensures var P := s.ports[s.frames[p].port]; P.state == Alloc && P.rsem.valid && P.queue != []
  {
    hide Queued, NoDup;
    FrameFacts(s, p);
    var i := s.frames[p].port;
    PortFrom(s, i);
    assert p in Granted(s.frames, i, s.ports[i].epoch, false);
    assert FrameOK(s, p);
  }

  /** ptrecv up to wait (system/ptrecv.c:19-33) and, if it does not block, to the end. */
  ghost function RecvBegun(s: Sys, p: int, i: int): (t: Sys)
    requires Inv(s) && p !in s.frames
    ensures Inv(t)
  {
    if BadPort(s, i) || !s.ports[i].rsem.valid then s
    else
      var P := s.ports[i];
      if P.rsem.count > 0 then
        ClaimRMid(s, i);
        Taken(SetPort(s, i, P.(rsem := Claimed(P.rsem))), i)
      else
        BlockMid(s, p, i, Receiving(i, P.seqno, P.epoch, false));
        Blocking(s, p, i, Receiving(i, P.seqno, P.epoch, false))
  }

  lemma ClaimRMid(s: Sys, i: int)
    requires Inv(s) && !BadPort(s, i) && s.ports[i].rsem.valid && s.ports[i].rsem.count > 0
    ensures var P := s.ports[i]; Mid(SetPort(s, i, P.(rsem := Claimed(P.rsem))), i, 0, 1) && P.queue != []
  {
    hide Granted, NoDup, Queued;
    var P := s.ports[i];
    PortFrom(s, i);
    var t := SetPort(s, i, P.(rsem := Claimed(P.rsem)));
    SameFrames(s, t, i);
    StepMid(s, t, i, 0, 0, 0, 1);
  }

  /** ptrecv after wait has returned to a process that was blocked. */
  ghost function RecvResumed(s: Sys, p: int): (t: Sys)
    requires Inv(s) && p in s.frames && s.frames[p].Receiving? && s.frames[p].granted
    requires (FrameFacts(s, p); Timely(s, p))
    ensures Inv(t)
  {
    FrameFacts(s, p);
    CheckTells(s, p);
    LeftMid(s, p);
    if Current(s, p) then
      MessageThere(s, p);
      Taken(Left(s, p), s.frames[p].port)
    else
      MidInv(Left(s, p), s.frames[p].port);
      Left(s, p)
  }

  // ---- clearing a port -----------------------------------------------------------------------------------

  /** All who wait on a semaphore are released. */
  function WakeAll(f: map<int, Frame>, w: seq<int>): map<int, Frame>
  {
    map p | p in f :: if p in w && !f[p].Clearing? then Wake(f[p]) else f[p]
  }

  lemma WokenWaiters(f: map<int, Frame>, c: Sema, d: Sema, i: int, send: bool)
    requires WaitersOK(f, c, i, send) && WaitersOK(f, d, i, !send)
    ensures WaitersOK(WakeAll(f, c.waiting), d, i, !send)
  {
  }

  lemma WokenOnly(f: map<int, Frame>, c: Sema, i: int, send: bool)
    requires WaitersOK(f, c, i, send)
    ensures OnlyPort(f, WakeAll(f, c.waiting), i)
  {
  }

  /** _ptclear up to its first possible switch: limbo, a new sequence number, the messages thrown
      away, the senders' semaphore reset or deleted (system/ptclear.c:21-45). */
  function ClearedPort(P: Port, keep: bool): Port
  {
    P.(state := Limbo, seqno := (P.seqno + 1) % WORD, epoch := P.epoch + 1, queue := [], sent := [], got := [],
       ssem := Vacated(P.ssem, keep, P.max), cap := if keep then P.max else P.cap)
  }

  ghost function ClearBegun(s: Sys, p: int, i: int, keep: bool): (t: Sys)
    requires Inv(s) && p !in s.frames && !BadPort(s, i)
    ensures Inv(t)
  {
    ClearBegunInv(s, p, i, keep);
    ClearStart(s, p, i, keep)
  }

  function ClearStart(s: Sys, p: int, i: int, keep: bool): Sys
    requires 0 <= i < |s.ports|
  {
    var P := s.ports[i];
    SetPort(s, i, ClearedPort(P, keep)).(frames := WakeAll(s.frames, P.ssem.waiting)[p := Clearing(i, keep, false)],
        nodes := s.nodes + |P.queue|)
  }

  lemma ClearBegunInv(s: Sys, p: int, i: int, keep: bool)
    requires Inv(s) && p !in s.frames && !BadPort(s, i)
    ensures Inv(ClearStart(s, p, i, keep))
  {
    hide Granted, NoDup, Queued;
    var P := s.ports[i];
    PortFrom(s, i);
    var t := ClearStart(s, p, i, keep);
    WokenWaiters(s.frames, P.ssem, P.rsem, i, true);
    WokenOnly(s.frames, P.ssem, i, true);
    NextResidue(P.epoch);
    NoWaiters(t.frames, t.ports[i].ssem, i, true);
    ClearingFrames(s, t, i, p, keep);
    StepMid(s, t, i, 0, 0, 0, 0);
    MidInv(t, i);
  }

  lemma NextResidue(e: int)
    ensures (e % WORD + 1) % WORD == (e + 1) % WORD
  {
  }

  lemma NoWaiters(f: map<int, Frame>, c: Sema, i: int, send: bool)
    requires c.waiting == [] && (!c.valid ==> c.count == 0)
    ensures WaitersOK(f, c, i, send)
  {
  }

  lemma ClearingFrames(s: Sys, t: Sys, i: int, p: int, keep: bool)
    requires |s.ports| == NPORTS && 0 <= i < NPORTS && t == ClearStart(s, p, i, keep) && OneClearer(s) && p !in s.frames
             && s.ports[i].state == Alloc
    requires forall x :: x in s.frames ==> FrameOK(s, x)
    ensures OneClearer(t) && forall x :: x in t.frames && t.frames[x].port == i ==> FrameOK(t, x)
  {
    forall x | x in t.frames && t.frames[x].port == i
      ensures FrameOK(t, x)
    {
      if x != p {
        assert FrameOK(s, x);
      }
    }
    forall x | x in s.frames && s.frames[x].Clearing?
      ensures s.frames[x].port != i
    {
      assert FrameOK(s, x);
    }
    forall x, y | x in t.frames && y in t.frames && t.frames[x].Clearing? && t.frames[y].Clearing?
        && t.frames[x].port == t.frames[y].port
      ensures x == y
    {
      assert (x == p || x in s.frames) && (y == p || y in s.frames);
    }
  }

  /** The receivers' semaphore (system/ptclear.c:43, 46). */
  function ClearMiddle(s: Sys, p: int): Sys
    requires p in s.frames && s.frames[p].Clearing? && 0 <= s.frames[p].port < |s.ports|
  {
    var f := s.frames[p];
    var P := s.ports[f.port];
    SetPort(s, f.port, P.(rsem := Vacated(P.rsem, f.keep, 0))).(frames :=
        WakeAll(s.frames, P.rsem.waiting)[p := f.(half := true)])
  }

  ghost function ClearHalved(s: Sys, p: int): (t: Sys)
    requires Inv(s) && p in s.frames && s.frames[p].Clearing? && !s.frames[p].half
    ensures Inv(t)
  {
    ClearHalvedInv(s, p);
    ClearMiddle(s, p)
  }

  lemma ClearHalvedInv(s: Sys, p: int)
    requires Inv(s) && p in s.frames && s.frames[p].Clearing?
    ensures 0 <= s.frames[p].port < |s.ports| && Inv(ClearMiddle(s, p))
  {
    hide Granted, NoDup, Queued;
    assert FrameOK(s, p);
    var i := s.frames[p].port;
    var P := s.ports[i];
    PortFrom(s, i);
    var t := ClearMiddle(s, p);
    NoWaiters(t.frames, t.ports[i].ssem, i, true);
    NoWaiters(t.frames, t.ports[i].rsem, i, false);
    WokenOnly(s.frames, P.rsem, i, false);
    HalvedFrames(s, t, i, p);
    StepMid(s, t, i, 0, 0, 0, 0);
    MidInv(t, i);
  }

  lemma HalvedFrames(s: Sys, t: Sys, i: int, p: int)
    requires |s.ports| == NPORTS && p in s.frames && s.frames[p].Clearing? && 0 <= i < NPORTS && i == s.frames[p].port
             && t == ClearMiddle(s, p)
    requires OneClearer(s) && WaitersOK(s.frames, s.ports[i].rsem, i, false)
    requires forall x :: x in s.frames ==> FrameOK(s, x)
    ensures OneClearer(t) && forall x :: x in t.frames && t.frames[x].port == i ==> FrameOK(t, x)
  {
    forall x | x in t.frames && t.frames[x].port == i
      ensures FrameOK(t, x)
    {
      assert FrameOK(s, x);
      assert x != p ==> !s.frames[x].Clearing?;
    }
    forall x, y | x in t.frames && y in t.frames && t.frames[x].Clearing? && t.frames[y].Clearing?
        && t.frames[x].port == t.frames[y].port
      ensures x == y
    {
      assert x in s.frames && y in s.frames && s.frames[x].Clearing? && s.frames[y].Clearing?;
    }
  }

  /** The port's new state, and for ptdelete the place to search from (system/ptclear.c:48,
      system/ptdelete.c:24). */
  function ClearFinish(s: Sys, p: int): Sys
    requires p in s.frames && s.frames[p].Clearing? && 0 <= s.frames[p].port < |s.ports|
  {
    var f := s.frames[p];
    var P := s.ports[f.port];
    var t := SetPort(s, f.port, P.(state := if f.keep then Alloc else Free));
    t.(frames := s.frames - {p}, nextid := if f.keep then s.nextid else f.port)
  }

  ghost function ClearEnded(s: Sys, p: int): (t: Sys)
    requires Inv(s) && p in s.frames && s.frames[p].Clearing? && s.frames[p].half
    ensures Inv(t)
  {
    ClearEndedInv(s, p);
    ClearFinish(s, p)
  }

  lemma ClearEndedInv(s: Sys, p: int)
    requires Inv(s) && p in s.frames && s.frames[p].Clearing? && s.frames[p].half
    ensures 0 <= s.frames[p].port < |s.ports| && Inv(ClearFinish(s, p))
  {
    hide NoDup, Queued;
    assert FrameOK(s, p);
    var i := s.frames[p].port;
    var P := s.ports[i];
    PortFrom(s, i);
    var t := ClearFinish(s, p);
    NoWaiters(t.frames, P.ssem, i, true);
    NoWaiters(t.frames, P.rsem, i, false);
    forall x | x in t.frames && t.frames[x].port == i
      ensures FrameOK(t, x) && !t.frames[x].Clearing? && t.frames[x].epoch != P.epoch
    {
      assert FrameOK(s, x) && x in s.frames;
    }
    GrantedNone(t.frames, i, P.epoch, true);
    GrantedNone(t.frames, i, P.epoch, false);
    assert OneClearer(t) by {
      FewerClearers(s, t);
    }
    StepMid(s, t, i, 0, 0, 0, 0);
    MidInv(t, i);
  }

  lemma FewerClearers(s: Sys, t: Sys)
    requires OneClearer(s) && forall p :: p in t.frames ==> p in s.frames && t.frames[p] == s.frames[p]
    ensures OneClearer(t)
  {
  }

  // ---- creating a port ---------------------------------------------------------------------------------------

  /** The next free port, searching round the table (system/ptcreate.c:24-32). */
  function FindPort(ports: seq<Port>, next: int, tries: nat): (r: (int, int))
    requires |ports| == NPORTS && 0 <= next < NPORTS
    ensures 0 <= r.1 < NPORTS && (r.0 == -1 || (0 <= r.0 < NPORTS && ports[r.0].state == Free))
    decreases tries
  {
    if tries == 0 then (-1, next)
    else
      var next' := if next + 1 >= NPORTS then 0 else next + 1;
      if ports[next].state == Free then (next, next') else FindPort(ports, next', tries - 1)
  }

  function FreePorts(ports: seq<Port>): (r: seq<bool>)
    ensures |r| == |ports|
  {
    seq(|ports|, i requires 0 <= i < |ports| => ports[i].state == Free)
  }

  /** An index one round further at most. */
  function Wrapped(i: int): int
  {
    if i < NPORTS then i else i - NPORTS
  }

  /** The search for a port: the first free one round the table; the next search starts behind it, or
      where this one started when it went all the way round. */
  lemma {:induction false} FindPortLaw(ports: seq<Port>, next: int, tries: nat)
    requires |ports| == NPORTS && 0 <= next < NPORTS && tries <= NPORTS
    ensures var (i, next') := FindPort(ports, next, tries);
            && FirstFree(FreePorts(ports), next, tries, i)
            && next' == if i == -1 then Wrapped(next + tries) else Wrapped(i + 1)
    decreases tries
  {
    hide FirstFree;
    var free := FreePorts(ports);
    if tries == 0 {
      NoTries(free, next);
    } else if ports[next].state == Free {
      FirstFreeHere(free, next, tries);
    } else {
      var next' := if next + 1 >= NPORTS then 0 else next + 1;
      FindPortLaw(ports, next', tries - 1);
      FirstFreeStep(free, next, next', tries, FindPort(ports, next', tries - 1).0);
    }
  }

  /** A new port: its two semaphores if there were any, the capacity kept in 16 bits. */
  function NewPort(P: Port, count: nat, sOk: bool, rOk: bool): Port
  {
    Port(Alloc, count % 0x1_0000, (P.seqno + 1) % WORD, P.epoch + 1, Sema(sOk, if sOk then count else 0, []),
        Sema(rOk, 0, []), count, [], [], [])
  }

  /** ptcreate; the flags say whether the two semcreate calls find a semaphore. */
  ghost function Created(s: Sys, count: int, sOk: bool, rOk: bool): (t: Sys)
    requires Inv(s)
    ensures Inv(t)
  {
    if count < 0 then s
    else
      var (i, next) := FindPort(s.ports, s.nextid, NPORTS);
      NextidInv(s, next);
      if i == -1 then s.(nextid := next)
      else
        CreatedInv(s.(nextid := next), i, count, sOk, rOk);
        SetPort(s, i, NewPort(s.ports[i], count, sOk, rOk)).(nextid := next)
  }

  lemma NextidInv(s: Sys, next: int)
    requires Inv(s) && 0 <= next < NPORTS
    ensures Inv(s.(nextid := next))
  {
    hide Granted, NoDup, Queued, Basics, Accounts;
    var t := s.(nextid := next);
    forall i | 0 <= i < NPORTS
      ensures PortOK(t, i, 0, 0)
    {
      assert PortOK(s, i, 0, 0);
    }
    forall p | p in t.frames
      ensures FrameOK(t, p)
    {
      assert FrameOK(s, p);
    }
  }

  lemma CreatedInv(s: Sys, i: int, count: nat, sOk: bool, rOk: bool)
    requires Inv(s) && 0 <= i < NPORTS && s.ports[i].state == Free
    ensures Inv(SetPort(s, i, NewPort(s.ports[i], count, sOk, rOk)))
  {
    hide NoDup, Queued;
    var P, Q := s.ports[i], NewPort(s.ports[i], count, sOk, rOk);
    PortFrom(s, i);
    var t := SetPort(s, i, Q);
    NextResidue(P.epoch);
    NoWaiters(t.frames, Q.ssem, i, true);
    NoWaiters(t.frames, Q.rsem, i, false);
    forall x | x in t.frames && t.frames[x].port == i
      ensures FrameOK(t, x) && !t.frames[x].Clearing? && t.frames[x].epoch != Q.epoch
    {
      assert FrameOK(s, x);
    }
    GrantedNone(t.frames, i, Q.epoch, true);
    GrantedNone(t.frames, i, Q.epoch, false);
    StepMid(s, t, i, 0, 0, 0, 0);
    MidInv(t, i);
  }

  // ---- counting -----------------------------------------------------------------------------------------------

  /** ptcount (system/ptcount.c:24-43). */
  function Count(s: Sys, i: int): int
  {
    if BadPort(s, i) then SYSERR
    else
      var P := s.ports[i];
      var count := if P.rsem.valid then P.rsem.count else SYSERR;
      var sndcnt := if P.ssem.valid then P.ssem.count else SYSERR;
      if count >= 0 && sndcnt < 0 then count + -sndcnt else count
  }

  /** What the count means.  Messages promised to released receivers are not counted, so that a
      port with a negative count is empty exactly when no released receiver has yet to run. */
  lemma CountMeans(s: Sys, i: int)
    requires Inv(s) && !BadPort(s, i) && s.ports[i].ssem.valid && s.ports[i].rsem.valid
    ensures var P := s.ports[i];
            var promised := |Granted(s.frames, i, P.epoch, false)|;
            && (Count(s, i) >= 0 ==> Count(s, i) == |P.queue| - promised + |P.ssem.waiting| && P.rsem.waiting == [])
            && (Count(s, i) < 0 ==> Count(s, i) == -|P.rsem.waiting| && |P.queue| == promised)
  {
    hide Queued;
    PortFrom(s, i);
  }

  // ---- the start ------------------------------------------------------------------------------------------------

  /** After ptinit: every port free, all nodes free. */
  function Start(maxmsgs: nat): Sys
  {
    Sys(seq(NPORTS, i => FreePort()), map[], 0, maxmsgs, maxmsgs)
  }

  function FreePort(): Port
  {
    Port(Free, 0, 0, 0, Sema(false, 0, []), Sema(false, 0, []), 0, [], [], [])
  }

  lemma {:induction false} NothingQueued(ports: seq<Port>, n: nat)
    requires n <= |ports| && forall i :: 0 <= i < n ==> ports[i].queue == []
    ensures Queued(ports, n) == 0
    decreases n
  {
    if n == 0 {
    } else {
      NothingQueued(ports, n - 1);
    }
  }

  lemma StartInv(maxmsgs: nat)
    ensures Inv(Start(maxmsgs))
  {
    NothingQueued(Start(maxmsgs).ports, NPORTS);
  }
}
