// Runs of the port system: any interleaving of sends, receives, resets, deletions and creations,
// with switches wherever a call can block or release another process.

module PortRun {

  import opened Common
  import opened PortSpec
  import opened Ports

  /** Process p makes a port call, goes on with one, or takes the next step of clearing a port. */
  datatype Event =
    | Create(count: int, sOk: bool, rOk: bool)
    | Send(p: int, i: int, msg: int) | SendRest(p: int)
    | Recv(p: int, i: int) | RecvRest(p: int)
    | Reset(p: int, i: int) | Delete(p: int, i: int) | Second(p: int) | Third(p: int)

  /** A process runs only when it is not blocked, a message node is there when one is needed (the
      source panics otherwise), and no process is kept from running until the 32-bit sequence number
      has been through all its values. */
  ghost predicate EventOK(s: Sys, e: Event)
    requires Inv(s)
  {
    match e
    case Create(_, _, _) => true
    case Send(p, i, _) => p !in s.frames
        && (!BadPort(s, i) && s.ports[i].ssem.valid && s.ports[i].ssem.count > 0 ==> s.nodes > 0)
    case SendRest(p) => p in s.frames && s.frames[p].Sending? && s.frames[p].granted
        && (FrameFacts(s, p); Timely(s, p) && (Current(s, p) ==> s.nodes > 0))
    case Recv(p, i) => p !in s.frames
    case RecvRest(p) => p in s.frames && s.frames[p].Receiving? && s.frames[p].granted
        && (FrameFacts(s, p); Timely(s, p))
    case Reset(p, i) => p !in s.frames
    case Delete(p, i) => p !in s.frames
    case Second(p) => p in s.frames && s.frames[p].Clearing? && !s.frames[p].half
    case Third(p) => p in s.frames && s.frames[p].Clearing? && s.frames[p].half
  }

  ghost function Apply(s: Sys, e: Event): (t: Sys)
    requires Inv(s) && EventOK(s, e)
    ensures Inv(t)
  {
    match e
    case Create(n, sOk, rOk) => Created(s, n, sOk, rOk)
    case Send(p, i, msg) => SendBegun(s, p, i, msg)
    case SendRest(p) => SendResumed(s, p)
    case Recv(p, i) => RecvBegun(s, p, i)
    case RecvRest(p) => RecvResumed(s, p)
    case Reset(p, i) => if BadPort(s, i) then s else ClearBegun(s, p, i, true)
    case Delete(p, i) => if BadPort(s, i) then s else ClearBegun(s, p, i, false)
    case Second(p) => ClearHalved(s, p)
    case Third(p) => ClearEnded(s, p)
  }

  ghost predicate RunOK(s: Sys, es: seq<Event>)
    requires Inv(s)
    decreases |es|
  {
    es == [] || (EventOK(s, es[0]) && RunOK(Apply(s, es[0]), es[1..]))
  }

  ghost function Run(s: Sys, es: seq<Event>): (t: Sys)
    requires Inv(s) && RunOK(s, es)
    ensures Inv(t)
    decreases |es|
  {
    if es == [] then s else Run(Apply(s, es[0]), es[1..])
  }

  /** What the process gets from the call, or that it is still inside it. */
  ghost function Answer(s: Sys, e: Event): Reply
    requires Inv(s) && EventOK(s, e)
  {
    match e
    case Create(n, _, _) => PortFrom(s, 0); Done(if n < 0 then SYSERR else FindPort(s.ports, s.nextid, NPORTS).0)
    case Send(_, i, _) => if BadPort(s, i) || !s.ports[i].ssem.valid then Done(SYSERR)
        else if s.ports[i].ssem.count > 0 then Done(OK) else Blocked
    case SendRest(p) => FrameFacts(s, p); Done(if Current(s, p) then OK else SYSERR)
    case Recv(_, i) => if BadPort(s, i) || !s.ports[i].rsem.valid then Done(SYSERR)
        else if s.ports[i].rsem.count > 0 then Oldest(s, i) else Blocked
    case RecvRest(p) => FrameFacts(s, p); if Current(s, p) then Oldest(s, s.frames[p].port) else Done(SYSERR)
    case Reset(_, i) => if BadPort(s, i) then Done(SYSERR) else Blocked
    case Delete(_, i) => if BadPort(s, i) then Done(SYSERR) else Blocked
    case Second(_) => Blocked
    case Third(_) => Done(OK)
  }

  /** The first message of port i. */
  function Oldest(s: Sys, i: int): Reply
    requires 0 <= i < |s.ports|
  {
    if s.ports[i].queue == [] then Blocked else Done(s.ports[i].queue[0])
  }

  /** One event on the tables does what Apply and Answer say. */
  method Step(m: System, e: Event) returns (r: Reply)
    requires m.Valid() && Inv(m.now) && EventOK(m.now, e)
    modifies m, m.nodes, m.porttab
    ensures m.Valid() && m.now == Apply(old(m.now), e) && r == Answer(old(m.now), e)
  {
    hide Stands, Mid, SendBegun, SendResumed, RecvBegun, RecvResumed, ClearBegun, ClearHalved, ClearEnded, Created;
    var x, d;
    match e {
      case Create(n, sOk, rOk) => x := m.PtCreate(n, sOk, rOk); r := Done(x);
      case Send(p, i, msg) => r := m.PtSend(p, i, msg);
      case SendRest(p) => x := m.PtSendRest(p); r := Done(x);
      case Recv(p, i) => r := m.PtRecv(p, i);
      case RecvRest(p) => x := m.PtRecvRest(p); r := Done(x);
      case Reset(p, i) => r, d := m.PtReset(p, i);
      case Delete(p, i) => r, d := m.PtDelete(p, i);
      case Second(p) => m.ClearSecond(p); r := Blocked;
      case Third(p) => m.ClearThird(p); r := Done(OK);
    }
  }

  /** Any run from ptinit on. */
  method Execute(maxmsgs: nat, es: seq<Event>) returns (m: System)
    requires maxmsgs > 0 && (StartInv(maxmsgs); RunOK(Start(maxmsgs), es))
    ensures fresh(m) && m.Valid() && Inv(m.now) && (StartInv(maxmsgs); m.now == Run(Start(maxmsgs), es))
  {
    hide Stands, Mid, Start, Apply, EventOK;
    m := new System(maxmsgs);
    m.PtInit();
    ghost var s := m.now;
    StartInv(maxmsgs);
    var k := 0;
    while k < |es|
      invariant 0 <= k <= |es| && fresh(m) && fresh(m.nodes) && fresh(m.porttab) && m.Valid() && Inv(m.now)
                && RunOK(m.now, es[k..])
      invariant Run(m.now, es[k..]) == Run(s, es)
    {
      assert es[k..][1..] == es[k + 1..];
      var r := Step(m, es[k]);
      k := k + 1;
    }
  }

  // ---- what every run guarantees ---------------------------------------------------------------------

  /** In every state reached: an allocated port holds no more than its capacity, and has delivered
      a prefix of what was sent since it was created or last cleared; free and queued nodes are
      all the nodes there are; whoever waits on an allocated port belongs to its present epoch. */
  lemma PortLaws(s: Sys, es: seq<Event>, i: int)
    requires Inv(s) && RunOK(s, es) && 0 <= i < NPORTS
    ensures var t := Run(s, es);
            && |t.ports| == NPORTS && t.nodes + Queued(t.ports, NPORTS) == t.pool
            && (t.ports[i].state == Alloc ==>
                  && t.ports[i].sent == t.ports[i].got + t.ports[i].queue
                  && (t.ports[i].ssem.valid ==> |t.ports[i].queue| <= t.ports[i].cap)
                  && (!t.ports[i].ssem.valid ==> t.ports[i].queue == [])
                  && (forall p ::
                     p in t.frames && !t.frames[p].Clearing? && t.frames[p].port == i && !t.frames[p].granted ==>
                       t.frames[p].epoch == t.ports[i].epoch))
  {
    hide Run, RunOK, Queued;
    var t := Run(s, es);
    PortFrom(t, i);
    forall p | p in t.frames && !t.frames[p].Clearing? && t.frames[p].port == i && !t.frames[p].granted
        && t.ports[i].state == Alloc
      ensures t.frames[p].epoch == t.ports[i].epoch
    {
      assert FrameOK(t, p);
    }
  }

  lemma PoolSame(s: Sys, e: Event)
    requires Inv(s) && EventOK(s, e)
    ensures Apply(s, e).pool == s.pool
  {
    hide Mid;
  }

  /** No event creates or loses a message node. */
  lemma {:induction false} PoolConserved(s: Sys, es: seq<Event>)
    requires Inv(s) && RunOK(s, es)
    ensures |Run(s, es).ports| == NPORTS && Run(s, es).nodes + Queued(Run(s, es).ports, NPORTS) == s.pool
    decreases |es|
  {
    hide Apply, EventOK, Queued;
    if es == [] {
      PortFrom(s, 0);
    } else {
      PoolSame(s, es[0]);
      PoolConserved(Apply(s, es[0]), es[1..]);
    }
  }

  lemma RunStep(s: Sys, es: seq<Event>)
    requires Inv(s) && es != [] && EventOK(s, es[0])
    ensures RunOK(s, es) <==> RunOK(Apply(s, es[0]), es[1..])
    ensures RunOK(s, es) ==> Run(s, es) == Run(Apply(s, es[0]), es[1..])
  {
  }

  lemma CreateStep(s: Sys, count: nat, sOk: bool, rOk: bool)
    requires Inv(s) && |s.ports| == NPORTS && 0 <= s.nextid < NPORTS && FindPort(s.ports, s.nextid, NPORTS).0 != -1
    ensures var i, t := FindPort(s.ports, s.nextid, NPORTS).0, Apply(s, Create(count, sOk, rOk));
            |t.ports| == NPORTS && t.ports[i] == NewPort(s.ports[i], count, sOk, rOk) && t.frames == s.frames
                && t.nodes == s.nodes
  {
    hide Mid, FindPort;
  }

  /** The three steps of a reset, with nothing in between: the capacity becomes what the table entry says. */
  lemma ResetSteps(s: Sys, p: int, i: int)
    requires Inv(s) && p !in s.frames && !BadPort(s, i)
    ensures var es := [Reset(p, i), Second(p), Third(p)];
            RunOK(s, es) && |Run(s, es).ports| == |s.ports| && Run(s, es).ports[i].state == Alloc
                && Run(s, es).ports[i].cap == s.ports[i].max
  {
    hide Mid, Run, RunOK, WakeAll;
    var es := [Reset(p, i), Second(p), Third(p)];
    RunStep(s, es);
    var t := Apply(s, es[0]);
    assert t.frames[p] == Clearing(i, true, false) && |t.ports| == |s.ports| && t.ports[i].cap == s.ports[i].max;
    HalvedStep(t, p);
    RunStep(t, es[1..]);
    var u := Apply(t, es[1]);
    EndedStep(u, p);
    RunStep(u, es[1..][1..]);
    NoMore(Apply(u, Third(p)));
    assert es[1..][1..][1..] == [];
  }

  lemma HalvedStep(s: Sys, p: int)
    requires Inv(s) && p in s.frames && s.frames[p].Clearing? && !s.frames[p].half && 0 <= s.frames[p].port < |s.ports|
    ensures var t := Apply(s, Second(p)); var i := s.frames[p].port;
            |t.ports| == |s.ports| && t.ports[i].cap == s.ports[i].cap && p in t.frames
                && t.frames[p] == s.frames[p].(half := true)
  {
    hide Mid;
  }

  lemma EndedStep(s: Sys, p: int)
    requires Inv(s) && p in s.frames && s.frames[p].Clearing? && s.frames[p].half && s.frames[p].keep
             && 0 <= s.frames[p].port < |s.ports|
    ensures var t := Apply(s, Third(p)); var i := s.frames[p].port;
            |t.ports| == |s.ports| && t.ports[i].cap == s.ports[i].cap && t.ports[i].state == Alloc
  {
    hide Mid;
  }

  lemma NoMore(s: Sys)
    requires Inv(s)
    ensures RunOK(s, []) && Run(s, []) == s
  {
    hide Mid;
  }

  /** A port that is created and later reset keeps its capacity exactly when that fits the 16 bits of
      its table entry. */
  lemma ResetCapacity(s: Sys, p: int, count: nat, sOk: bool, rOk: bool)
    requires Inv(s) && p !in s.frames && |s.ports| == NPORTS && 0 <= s.nextid < NPORTS
    requires FindPort(s.ports, s.nextid, NPORTS).0 != -1
    ensures var i := FindPort(s.ports, s.nextid, NPORTS).0;
            var es := [Create(count, sOk, rOk), Reset(p, i), Second(p), Third(p)];
            && RunOK(s, es) && |Run(s, es).ports| == NPORTS && Run(s, es).ports[i].state == Alloc
            && (Run(s, es).ports[i].cap == count <==> count < 0x1_0000)
  {
    hide Mid, Run, RunOK, Apply, FindPort;
    var i := FindPort(s.ports, s.nextid, NPORTS).0;
    var es := [Create(count, sOk, rOk), Reset(p, i), Second(p), Third(p)];
    CreateStep(s, count, sOk, rOk);
    RunStep(s, es);
    assert es[1..] == [Reset(p, i), Second(p), Third(p)];
    ResetSteps(Apply(s, es[0]), p, i);
  }

  /** A port created for 65536 messages holds none after a reset. */
  lemma CapacityLost()
    ensures var es := [Create(0x1_0000, true, true), Reset(1, 0), Second(1), Third(1)];
            && Inv(Start(1)) && RunOK(Start(1), es) && |Run(Start(1), es).ports| == NPORTS
            && Run(Start(1), es).ports[0].state == Alloc && Run(Start(1), es).ports[0].cap == 0
  {
    hide Mid, Run, RunOK, Apply;
    var s := Start(1);
    var es := [Create(0x1_0000, true, true), Reset(1, 0), Second(1), Third(1)];
    StartInv(1);
    FirstPort(1);
    CreateStep(s, 0x1_0000, true, true);
    RunStep(s, es);
    assert es[1..] == [Reset(1, 0), Second(1), Third(1)];
    ResetSteps(Apply(s, es[0]), 1, 0);
  }

  lemma FirstPort(maxmsgs: nat)
    ensures FindPort(Start(maxmsgs).ports, 0, NPORTS) == (0, 1)
  {
  }

  /** One message, two receivers blocked before it was sent: the count is negative and the port is not empty. */
  lemma NegativeCountNotEmpty()
    ensures var es := [Create(1, true, true), Recv(1, 0), Recv(2, 0), Send(3, 0, 7)];
            && Inv(Start(2)) && RunOK(Start(2), es) && Count(Run(Start(2), es), 0) == -1
            && |Run(Start(2), es).ports| == NPORTS && Run(Start(2), es).ports[0].queue == [7]
  {
    hide Mid, Run, RunOK, Apply;
    var s := Start(2);
    var es := [Create(1, true, true), Recv(1, 0), Recv(2, 0), Send(3, 0, 7)];
    StartInv(2);
    FirstPort(2);
    CreateStep(s, 1, true, true);
    RunStep(s, es);
    var s1 := Apply(s, es[0]);
    RecvBlocks(s1, 1, 0);
    RunStep(s1, es[1..]);
    var s2 := Apply(s1, es[1]);
    RecvBlocks(s2, 2, 0);
    RunStep(s2, es[2..]);
    var s3 := Apply(s2, es[2]);
    SendGrants(s3, 3, 0, 7);
    RunStep(s3, es[3..]);
    NoMore(Apply(s3, es[3]));
    assert es[1..][1..] == es[2..] && es[2..][1..] == es[3..] && es[3..][1..] == [];
  }

  lemma RecvBlocks(s: Sys, p: int, i: int)
    requires Inv(s) && p !in s.frames && !BadPort(s, i) && s.ports[i].rsem.valid && s.ports[i].rsem.count <= 0
    ensures var t := Apply(s, Recv(p, i));
            && t.ports == s.ports[i := t.ports[i]] && t.ports[i].queue == s.ports[i].queue && t.ports[i].state == Alloc
            && t.ports[i].ssem == s.ports[i].ssem && t.ports[i].rsem == Joined(s.ports[i].rsem, p)
            && t.frames == s.frames[p := t.frames[p]] && !t.frames[p].Clearing? && t.nodes == s.nodes
  {
    hide Mid;
  }

  lemma SendGrants(s: Sys, p: int, i: int, msg: int)
    requires Inv(s) && p !in s.frames && !BadPort(s, i) && s.ports[i].ssem.valid && s.ports[i].ssem.count > 0
             && s.nodes > 0
    requires s.ports[i].rsem.valid && s.ports[i].rsem.count < 0
    ensures EventOK(s, Send(p, i, msg))
    ensures var t := Apply(s, Send(p, i, msg));
            |t.ports| == |s.ports| && t.ports[i].queue == s.ports[i].queue + [msg] && t.ports[i].state == Alloc
            && t.ports[i].rsem.count == s.ports[i].rsem.count + 1 && t.ports[i].ssem.valid && t.ports[i].rsem.valid
  {
    hide Mid;
    Sizes(s);
    ClaimMid(s, i);
    var c := SetPort(s, i, s.ports[i].(ssem := Claimed(s.ports[i].ssem)));
    PushMid(c, i, msg);
    SignalRMid(Pushed(c, i, msg), i, 0);
  }
}
