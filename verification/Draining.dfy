/** Draining: once a host has called mux_goaway no stream is opened by the peer any more. What can still be opened,
    say at a host that has just refused the peer's proof, is what was queued before. */
module Draining {
  import opened Wire
  import opened Codec
  import opened Session
  import opened Trace
  import opened Node
  import opened NodeConsume
  import opened NodeRuns
  import opened HostWake
  import opened Pair
  import opened Welcome

  /** The session lets no stream in. */
  predicate Shut(n: Node) { n.s.dead || n.s.localGoaway }

  /** The openings of a log, in order. */
  function Openings(log: seq<Event>): seq<Event> {
    if log == [] then []
    else Openings(log[..|log| - 1]) + if log[|log| - 1].StreamOpened? then [log[|log| - 1]] else []
  }

  lemma {:induction false} NoOpenings(log: seq<Event>, es: seq<Event>)
    requires forall e :: e in es ==> !e.StreamOpened?
    ensures Openings(log + es) == Openings(log)
    decreases |es|
  {
    if es == [] {
      assert log + es == log;
    } else {
      var p := es[..|es| - 1];
      NoOpenings(log, p);
      assert (log + es)[..|log + es| - 1] == log + p;
    }
  }

  lemma GoAwayShuts(n: Node, reason: U32)
    ensures Shut(Do(n, CallGoAway(reason)))
  {
    hide DoOpen, DoWrite, DoClose, DoReset, DoConsume, DoCapacity, DoTimer, DoAdvance, DoPop, Encode, GrowTo;
  }

  /** A SYN is refused. */
  lemma ShutSyn(s: Session, f: Frame)
    requires s.localGoaway
    ensures s.events <= OnSyn(s, f).events
    ensures forall k :: |s.events| <= k < |OnSyn(s, f).events| ==> !OnSyn(s, f).events[k].StreamOpened?
  {
    hide Emit, SynIllegal;
    EmitKeeps(s, RstFrame(f.sid, CODE_REFUSED));
  }

  lemma ShutProcess(s: Session, f: Frame, order: seq<Sid>)
    requires GoodConfig(s.cfg) && s.localGoaway
    ensures var s1 := Process(s, f, order);
            && s1.localGoaway && s.events <= s1.events
            && forall k :: |s.events| <= k < |s1.events| ==> !s1.events[k].StreamOpened?
  {
    ProcessKeepsPeer(s, f, order);
    if IsSyn(f) {
      hide OnSyn, OnStreamData, OnWindowUpdate, OnPing, OnGoAway, OnCapacity, OnHello;
      ShutSyn(s, f);
    } else {
      hide Process;
      PlainProcess(s, f, order);
    }
  }

  lemma LogQuiet(n: Node, n': Node)
    requires n'.popped == n.popped && n.s.events <= n'.s.events
    requires forall k :: |n.s.events| <= k < |n'.s.events| ==> !n'.s.events[k].StreamOpened?
    ensures Openings(Log(n')) == Openings(Log(n))
  {
    var es := n'.s.events[|n.s.events|..];
    assert n'.s.events == n.s.events + es;
    assert Log(n') == Log(n) + es;
    NoOpenings(Log(n), es);
  }

  /** One step of a session that is shut, whatever it is: it stays shut, and no opening is added. */
  lemma ShutStep(n: Node, st: Step)
    requires GoodConfig(n.s.cfg) && Shut(n)
    ensures Shut(Next(n, st)) && Openings(Log(Next(n, st))) == Openings(Log(n))
  {
    hide Do, Process, Openings;
    match st
    case HostCall(c) =>
      CallBase(n, c);
      var es :| Log(Do(n, c)) == Log(n) + es && forall e :: e in es ==> e == Fatal(CODE_INTERNAL);
      NoOpenings(Log(n), es);
    case PeerFrame(f, order) =>
      if !n.s.dead {
        ShutProcess(n.s, f, order);
        LogQuiet(n, Receive(n, f, order));
      }
    case PeerGarbage =>
      LogQuiet(n, Next(n, st));
  }

  /** The streams a peer gets opened after the host has shut the session are exactly those whose opening was in the
      queue by then, whatever else happens. */
  lemma {:induction false} OnlyQueuedOpen(ns: seq<Node>, sts: seq<Step>)
    requires |ns| == |sts| + 1 && Shut(ns[0])
    requires forall i :: 0 <= i < |sts| ==> GoodConfig(ns[i].s.cfg) && ns[i + 1] == Next(ns[i], sts[i])
    ensures Openings(Log(ns[|sts|])) == Openings(Log(ns[0])) && Shut(ns[|sts|])
    decreases |sts|
  {
    hide Next, Openings, Shut;
    if |sts| > 0 {
      var k := |sts| - 1;
      OnlyQueuedOpen(ns[..k + 1], sts[..k]);
      ShutStep(ns[k], sts[k]);
    }
  }
}
