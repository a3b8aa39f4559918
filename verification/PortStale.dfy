// What happens when a port is cleared so often that its 32-bit sequence number comes round while a
// process is still on its way out of wait (system/ptsend.c:29-32, system/ptrecv.c:28-30).

module PortStale {

  import opened Common
  import opened PortSpec
  import opened PortRun

  /** Process 2 resets port 0 n times. */
  ghost function Resets(n: nat): seq<Event>
  {
    if n == 0 then [] else Resets(n - 1) + [Reset(2, 0), Second(2), Third(2)]
  }

  lemma {:induction false} RunJoin(s: Sys, c: seq<Event>, d: seq<Event>)
    requires Inv(s) && RunOK(s, c) && RunOK(Run(s, c), d)
    ensures RunOK(s, c + d) && Run(s, c + d) == Run(Run(s, c), d)
    decreases |c|
  {
    hide Inv, Apply, EventOK;
    if c == [] {
      assert c + d == d;
    } else {
      assert (c + d)[1..] == c[1..] + d;
      RunJoin(Apply(s, c[0]), c[1..], d);
    }
  }

  /** Port 0, created with no room, has been reset n times since process 1 blocked in it: f is the
      frame of process 1 as it was then. */
  ghost predicate Behind(s: Sys, f: Frame, n: nat)
  {
    && Inv(s) && |s.ports| == NPORTS && s.frames.Keys == {1}
    && !f.Clearing? && f.port == 0 && f.seqno == 1 && f.epoch == 1 && !f.granted
    && s.frames[1] == (if n == 0 then f else Wake(f))
    && s.nodes > 0
    && var P := s.ports[0];
       P.state == Alloc && P.epoch == n + 1 && P.queue == [] && P.cap == 0 && P.max == 0 && P.ssem.valid && P.rsem.valid
  }

  /** One reset: process 1 is released if it was not, and the port is one epoch further. */
  lemma ResetOnce(s: Sys, f: Frame, n: nat)
    requires Behind(s, f, n)
    ensures var es := [Reset(2, 0), Second(2), Third(2)]; RunOK(s, es) && Behind(Run(s, es), f, n + 1)
  {
    hide Mid, Run, RunOK;
    var es := [Reset(2, 0), Second(2), Third(2)];
    RunStep(s, es);
    var t := Apply(s, es[0]);
    Waits(s);
    Waits(t);
    RunStep(t, es[1..]);
    var u := Apply(t, es[1]);
    RunStep(u, es[1..][1..]);
    var v := Apply(u, es[2]);
    NoMore(v);
    assert es[1..][1..][1..] == [];
  }

  /** A process that is not released waits. */
  lemma Waits(s: Sys)
    requires Inv(s) && 1 in s.frames && !s.frames[1].Clearing?
    ensures 0 <= s.frames[1].port < |s.ports|
    ensures var P := s.ports[s.frames[1].port];
            !s.frames[1].granted ==> 1 in (if s.frames[1].Sending? then P.ssem else P.rsem).waiting
  {
    assert FrameOK(s, 1);
  }

  lemma {:induction false} ResetOften(s: Sys, f: Frame, n: nat)
    requires Behind(s, f, 0)
    ensures RunOK(s, Resets(n)) && Behind(Run(s, Resets(n)), f, n)
  {
    hide Mid, Run, RunOK;
    if n == 0 {
      NoMore(s);
    } else {
      ResetOften(s, f, n - 1);
      ResetOnce(Run(s, Resets(n - 1)), f, n - 1);
      RunJoin(s, Resets(n - 1), [Reset(2, 0), Second(2), Third(2)]);
    }
  }

  /** Process 1 sends to, or receives from, a port without room and without messages, and blocks. */
  ghost predicate Blocks(e: Event)
  {
    e == Send(1, 0, 7) || e == Recv(1, 0)
  }

  function FrameOf(e: Event): Frame
  {
    if e.Send? then Sending(0, 7, 1, 1, false) else Receiving(0, 1, 1, false)
  }

  lemma BlockedAtFirst(s: Sys, e: Event)
    requires s == Start(1) && Blocks(e)
    ensures Inv(s) && RunOK(s, [Create(0, true, true), e]) && Behind(Run(s, [Create(0, true, true), e]), FrameOf(e), 0)
  {
    hide Mid, Run, RunOK;
    var es := [Create(0, true, true), e];
    StartInv(1);
    FirstPort(1);
    CreateStep(s, 0, true, true);
    RunStep(s, es);
    var t := Apply(s, es[0]);
    assert t.ports[0] == NewPort(FreePort(), 0, true, true) && t.frames == map[] && t.nodes == 1;
    RunStep(t, es[1..]);
    NoMore(Apply(t, e));
    assert es[1..][1..] == [];
  }

  /** After 2^32 resets process 1 passes the check although its port was cleared, and as a sender
      finds no slot, as a receiver no message. */
  lemma StaleCheckPasses(e: Event, n: nat)
    requires Blocks(e) && n == WORD
    ensures var es := [Create(0, true, true), e] + Resets(n);
            && (StartInv(1); RunOK(Start(1), es))
            && var t := (StartInv(1); Run(Start(1), es));
               && |t.ports| == NPORTS && 1 in t.frames && t.frames[1] == Wake(FrameOf(e)) && Current(t, 1)
               && t.ports[0].epoch - t.frames[1].epoch == WORD && |t.ports[0].queue| == t.ports[0].cap == 0
  {
    hide Mid, Run, RunOK, Resets;
    var s := Start(1);
    var es := [Create(0, true, true), e];
    BlockedAtFirst(s, e);
    ResetOften(Run(s, es), FrameOf(e), n);
    RunJoin(s, es, Resets(n));
    NumberComesRound(Run(s, es + Resets(n)), n);
  }

  lemma NumberComesRound(s: Sys, n: nat)
    requires Inv(s) && |s.ports| == NPORTS && s.ports[0].epoch == n + 1 && n == WORD
    ensures s.ports[0].seqno == 1
  {
    PortFrom(s, 0);
  }
}
