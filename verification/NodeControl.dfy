/** Connection credit, the greeting and the other control frames; then any frame and any call. */
module NodeControl {
  import opened Wire
  import opened Codec
  import opened Session
  import opened Trace
  import opened Node
  import opened NodeSteps
  import opened NodeSend
  import opened NodeConsume
  import opened NodeReceive

  // ---------------------------------------------------------------- connection credit

  lemma BlockedExhausted(n: Node, x: Sid)
    requires SidOk(n, x) && !n.s.dead && x in n.s.streams && n.s.streams[x].blocked
    ensures n.s.streams[x].sendWin <= 0 || n.s.sendWin <= 0
  {
    hide Tr, Hear;
  }

  /** The sweep runs exactly when it is needed, and then misses no stream. */
  lemma SessionGrantShape(n: Node, f: Frame, order: seq<Sid>) returns (o: seq<Sid>, es: seq<Event>)
    requires Inv(n) && !n.s.dead && IsCredit(f) && f.sid == SID_CONTROL && Enumerates(order, n.s.streams.Keys)
    requires n.s.sendWin + Get32(f.payload, 0) <= WINDOW_LIMIT
    ensures var s1 := OnSessionCredit(n.s, Get32(f.payload, 0), order);
            SessionGranted(n, n.(s := s1, rcvd := n.rcvd + [f]), f, o, es)
  {
    hide SidOk, IdsOk, HelloOk, FlowOk, WireOk, EncodeAll, Get32, Sweep;
    var s0 := n.s.(sendWin := n.s.sendWin + Get32(f.payload, 0));
    var s1 := OnSessionCredit(n.s, Get32(f.payload, 0), order);
    if n.s.sendWin <= 0 && s0.sendWin > 0 && s0.blockedCount > 0 {
      o := order;
      es := SweepSwept(s0, order);
      forall x | x in s1.streams && s1.streams[x].blocked ensures s1.streams[x].sendWin <= 0 {
        assert s1.streams[x] == Woken(s0.streams[x], x in order);
      }
    } else {
      o, es := [], [];
      assert s0.events + es == s0.events;
      forall x | x in s1.streams && s1.streams[x].blocked
        ensures s1.streams[x].sendWin <= 0 || s1.sendWin <= 0
      {
        BlockedExhausted(n, x);
        assert x in BlockedSet(n.s.streams);
      }
    }
  }

  lemma SessionOverflowInv(n: Node, c: nat)
    requires Inv(n) && !n.s.dead
    ensures Inv(n.(s := RaiseFatal(n.s.(sendWin := n.s.sendWin + c), CODE_FLOW_CONTROL)))
  {
    hide WireOk, EncodeAll, Tr, TotalData, LastSyn, TotalIn, Hear;
    var n' := n.(s := RaiseFatal(n.s.(sendWin := n.s.sendWin + c), CODE_FLOW_CONTROL));
    HearAppend(Log(n), Fatal(CODE_FLOW_CONTROL), SID_CONTROL);
    assert Log(n') == Log(n) + [Fatal(CODE_FLOW_CONTROL)];
    forall x: Sid ensures SidOk(n', x) {
      assert SidOk(n, x);
      HearAppend(Log(n), Fatal(CODE_FLOW_CONTROL), x);
    }
  }

  lemma SessionCreditInInv(n: Node, f: Frame, order: seq<Sid>)
    requires Inv(n) && !n.s.dead && n.s.helloSeen && IsCredit(f) && f.sid == SID_CONTROL
    requires Enumerates(order, n.s.streams.Keys)
    ensures var s1 := OnSessionCredit(n.s, Get32(f.payload, 0), order);
            && s1.helloSeen
            && Inv(n.(s := s1, rcvd := if s1.dead then n.rcvd else n.rcvd + [f]))
  {
    hide SessOk, SidOk, WireOk, EncodeAll, Get32, Sweep;
    if n.s.sendWin + Get32(f.payload, 0) > WINDOW_LIMIT {
      SessionOverflowInv(n, Get32(f.payload, 0));
    } else {
      var o, es := SessionGrantShape(n, f, order);
      var n' := n.(s := OnSessionCredit(n.s, Get32(f.payload, 0), order), rcvd := n.rcvd + [f]);
      forall x: Sid ensures SidOk(n', x) {
        SessionGrantedSid(n, n', f, o, es, x);
      }
      SessionGrantedSess(n, n', f, o, es);
    }
  }

  // ---------------------------------------------------------------- greeting

  lemma {:induction false} ReadTlvsWindow(p: Params, buf: seq<Byte>, cursor: nat)
    requires cursor <= |buf| && p.sendWin >= 0
    ensures ReadTlvs(p, buf, cursor).0.sendWin >= 0
    decreases |buf| - cursor
  {
    var r := NextTlv(buf, cursor);
    if r.TlvNext? {
      ReadTlvsWindow(TakeTlv(p, r.tlv), buf, r.cursor);
    }
  }

  /** Before the greeting there are no streams, so the peer's parameters can be set freely. */
  ghost predicate Greets(n: Node, n': Node, f: Frame, p: Params) {
    && n' == n.(s := n'.s, rcvd := [f], peer := p)
    && n'.s == n.s.(peerMax := p.peerMax, peerInit := p.peerInit, sendWin := p.sendWin, helloSeen := true,
                    events := n.s.events + [PeerHello(p.info)])
  }

  lemma GreetsSid(n: Node, n': Node, f: Frame, p: Params, x: Sid)
    requires SidOk(n, x) && HelloOk(n) && IdsOk(n) && !n.s.dead && !n.s.helloSeen && IsHello(f) && Greets(n, n', f, p)
    ensures SidOk(n', x)
  {
    hide Hear, Tr, TotalIn, TotalData, LastSyn, HasSyn, HasFin, HasRst, Get32;
    HearAppend(Log(n), PeerHello(p.info), x);
    assert Log(n') == Log(n) + [PeerHello(p.info)];
    Nothing(x);
    TrAppend([], f, x);
    assert [] + [f] == [f];
    assert Tr([f], x) == ZERO;
  }

  lemma GreetsSess(n: Node, n': Node, f: Frame, p: Params)
    requires SessOk(n) && !n.s.dead && !n.s.helloSeen && IsHello(f) && Greets(n, n', f, p) && p.sendWin >= 0
    ensures SessOk(n')
  {
    hide Hear, Tr, TotalData, TotalIn, LastSyn, HasSyn, HasFin, HasRst, Get32;
    HearAppend(Log(n), PeerHello(p.info), SID_CONTROL);
    assert Log(n') == Log(n) + [PeerHello(p.info)];
    Nothing(SID_CONTROL);
    TrAppend([], f, SID_CONTROL);
    TotalAppend([], f);
    LastSynAppend([], f);
    assert [] + [f] == [f];
  }

  lemma GreetsInv(n: Node, n': Node, f: Frame, p: Params)
    requires Inv(n) && !n.s.dead && !n.s.helloSeen && IsHello(f) && Greets(n, n', f, p) && p.sendWin >= 0
    ensures Inv(n')
  {
    hide IdsOk, HelloOk, FlowOk, SidOk, WireOk, EncodeAll;
    forall x: Sid ensures SidOk(n', x) {
      GreetsSid(n, n', f, p, x);
    }
    GreetsSess(n, n', f, p);
  }

  /** A greeting that fails half-way leaves a dead session whose parameters are of no consequence. */
  lemma FailedGreetingInv(n: Node, s: Session)
    requires Inv(n) && !n.s.dead && !n.s.helloSeen
    requires s == n.s.(dead := true, peerMax := s.peerMax, peerInit := s.peerInit, sendWin := s.sendWin,
                       helloSeen := s.helloSeen, events := s.events)
    requires s.sendWin >= 0
    requires exists es :: s.events == n.s.events + es && forall e :: e in es ==> Mute(e)
    ensures Inv(n.(s := s))
  {
    hide WireOk, EncodeAll, Tr, TotalData, LastSyn, TotalIn, Hear;
    var es :| s.events == n.s.events + es && forall e :: e in es ==> Mute(e);
    var n' := n.(s := s);
    assert Log(n') == Log(n) + es;
    HearMute(Log(n), es, SID_CONTROL);
    forall x: Sid ensures SidOk(n', x) {
      assert SidOk(n, x);
      HearMute(Log(n), es, x);
    }
  }

  lemma HelloInv(n: Node, f: Frame, order: seq<Sid>)
    requires Inv(n) && !n.s.dead && IsHello(f)
    ensures Inv(Receive(n, f, order))
  {
    hide Inv, Receive, OnHello;
    BeforeHello(n);
    var ack := f.typ == T_HELLO_ACK;
    HelloReceived(n, f, order);
    if f.sid != SID_CONTROL || n.s.helloSeen {
      HelloRejected(n.s, f, ack);
      DieInv(n, CODE_PROTOCOL);
    } else {
      GreetingInv(n, f, ack, Receive(n, f, order));
    }
  }

  lemma BeforeHello(n: Node)
    requires Inv(n)
    ensures GoodConfig(n.s.cfg)
    ensures !n.s.helloSeen ==> n.rcvd == []
    ensures !n.s.helloSeen && !n.s.dead ==>
            Params(n.s.peerMax, n.s.peerInit, n.s.sendWin, NO_INFO) == DEFAULT_PARAMS == n.peer
  {
    hide IdsOk, FlowOk, SidOk, WireOk, EncodeAll, TotalData;
  }

  lemma HelloReceived(n: Node, f: Frame, order: seq<Sid>)
    requires GoodConfig(n.s.cfg) && !n.s.dead && IsHello(f)
    ensures var s1 := OnHello(n.s, f, f.typ == T_HELLO_ACK);
            Receive(n, f, order)
            == n.(s := s1, rcvd := if s1.dead then n.rcvd else n.rcvd + [f],
                  peer := if s1.helloSeen && !n.s.helloSeen && !s1.dead then HelloParams(f) else n.peer)
  {
    hide OnHello, OnPing, OnGoAway, OnCapacity, OnWindowUpdate, OnSyn, OnStreamData, HelloParams;
  }

  lemma HelloRejected(s: Session, f: Frame, ack: bool)
    requires GoodConfig(s.cfg) && (f.sid != SID_CONTROL || s.helloSeen) && !s.dead
    ensures OnHello(s, f, ack) == RaiseFatal(s, CODE_PROTOCOL)
  {
    hide ReadTlvs, SendHello;
  }

  lemma GreetingInv(n: Node, f: Frame, ack: bool, n': Node)
    requires Inv(n) && !n.s.dead && !n.s.helloSeen && IsHello(f) && f.sid == SID_CONTROL
    requires GoodConfig(n.s.cfg) && n.rcvd == []
    requires Params(n.s.peerMax, n.s.peerInit, n.s.sendWin, NO_INFO) == DEFAULT_PARAMS == n.peer
    requires var s1 := OnHello(n.s, f, ack);
             n' == n.(s := s1, rcvd := if s1.dead then n.rcvd else n.rcvd + [f],
                      peer := if s1.helloSeen && !n.s.helloSeen && !s1.dead then HelloParams(f) else n.peer)
    ensures Inv(n')
  {
    hide Inv, SendHello, ReadTlvs;
    var (p, ok) := ReadTlvs(DEFAULT_PARAMS, f.payload, 0);
    ReadTlvsWindow(DEFAULT_PARAMS, f.payload, 0);
    var s1 := n.s.(peerMax := p.peerMax, peerInit := p.peerInit, sendWin := p.sendWin);
    if !ok {
      assert n'.s.events == n.s.events + [Fatal(CODE_PROTOCOL)];
      FailedGreetingInv(n, n'.s);
    } else {
      var s2 := Queue(s1.(helloSeen := true), PeerHello(p.info));
      var n1 := n.(s := s2, rcvd := [f], peer := p);
      GreetsInv(n, n1, f, p);
      if !ack && n.s.role.Acceptor? && !n.s.helloSent {
        GreetingSent(s2);
        AckInv(n, n1, n', f, p);
      } else {
        assert n' == n1;
      }
    }
  }

  lemma GreetingSent(s: Session)
    requires GoodConfig(s.cfg)
    ensures SendHello(s, true).helloSeen == s.helloSeen
  {
    hide Encode, GrowTo, HelloPayload;
  }

  /** The acceptor answers a greeting with its own, or dies for want of room. */
  lemma AckInv(n: Node, n1: Node, n': Node, f: Frame, p: Params)
    requires Inv(n) && Inv(n1) && !n.s.dead && !n.s.helloSeen && IsHello(f) && p.sendWin >= 0
    requires n1 == n.(s := n1.s, rcvd := [f], peer := p) && GoodConfig(n.s.cfg)
    requires n1.s == n.s.(peerMax := p.peerMax, peerInit := p.peerInit, sendWin := p.sendWin, helloSeen := true,
                          events := n.s.events + [PeerHello(p.info)])
    requires n' == if SendHello(n1.s, true).dead then n.(s := SendHello(n1.s, true))
             else n1.(s := SendHello(n1.s, true))
    ensures Inv(n')
  {
    hide Inv, Encode, GrowTo, HelloPayload;
    var g := HelloFrame(n1.s, true);
    if HasRoom(n1.s, g) {
      QuietEmit(n1, g);
      HelloSentInv(n1.(s := Emit(n1.s, g).0));
    } else {
      assert n'.s.events == n.s.events + [PeerHello(p.info), Fatal(CODE_INTERNAL)];
      FailedGreetingInv(n, n'.s);
    }
  }

  lemma HelloSentInv(n: Node)
    requires Inv(n)
    ensures Inv(n.(s := n.s.(helloSent := true)))
  {
    hide SessOk, SidOk, WireOk, EncodeAll;
    assert n.s.wire + [] == n.s.wire && n.rcvd + [] == n.rcvd && Log(n) + [] == Log(n);
    QuietInv(n, n.(s := n.s.(helloSent := true)), [], [], []);
  }

  // ---------------------------------------------------------------- other control frames

  /** A control frame that is processed without output. */
  lemma NoticeInv(n: Node, f: Frame, s1: Session, es: seq<Event>)
    requires Inv(n) && !n.s.dead && n.s.helloSeen && Control(f)
    requires s1 == n.s.(timer := s1.timer, events := n.s.events + es) && forall e :: e in es ==> Mute(e)
    ensures Inv(n.(s := s1, rcvd := n.rcvd + [f]))
  {
    hide IdsOk, FlowOk, SidOk, WireOk, EncodeAll, TotalData, LastSyn, TotalIn;
    var n' := n.(s := s1, rcvd := n.rcvd + [f]);
    assert Log(n') == Log(n) + es;
    assert n.s.wire + [] == n.s.wire;
    QuietInv(n, n', [], [f], es);
  }

  lemma EchoInv(n: Node, f: Frame)
    requires Inv(n) && !n.s.dead && n.s.helloSeen && f.typ == T_PING && f.sid == SID_CONTROL && |f.payload| == 8
    ensures var s1 := Emit(n.s, Frame(T_PING, F_ACK, SID_CONTROL, f.payload)).0;
            Inv(n.(s := s1, rcvd := if s1.dead then n.rcvd else n.rcvd + [f]))
  {
    hide IdsOk, FlowOk, SidOk, WireOk, Encode, EncodeAll, GrowTo, TotalData, LastSyn, TotalIn;
    var g := Frame(T_PING, F_ACK, SID_CONTROL, f.payload);
    if HasRoom(n.s, g) {
      var n' := n.(s := Emitted(n.s, g), rcvd := n.rcvd + [f]);
      EncodeAppend(n.s.wire, g);
      assert Log(n') == Log(n) + [];
      QuietInv(n, n', [g], [f], []);
    } else {
      DieInv(n, CODE_INTERNAL);
    }
  }

  lemma ControlInv(n: Node, f: Frame, order: seq<Sid>)
    requires Inv(n) && !n.s.dead && n.s.helloSeen
    requires f.typ == T_PING || f.typ == T_GOAWAY || f.typ == T_CAPACITY
    ensures Inv(Receive(n, f, order))
  {
    hide IdsOk, HelloOk, FlowOk, SidOk, WireOk, Encode, EncodeAll, GrowTo, OnHello, OnWindowUpdate, OnSyn, OnStreamData,
      Get32;
    var s1 := Process(n.s, f, order);
    if f.sid != SID_CONTROL {
      DieInv(n, CODE_PROTOCOL);
    } else if f.typ == T_PING {
      if |f.payload| != 8 {
        DieInv(n, CODE_PROTOCOL);
      } else if HasAck(f.flags) {
        assert s1.events == n.s.events + [];
        NoticeInv(n, f, s1, []);
      } else {
        EchoInv(n, f);
      }
    } else if (if f.typ == T_GOAWAY then |f.payload| < 8 else |f.payload| != 4) {
      DieInv(n, CODE_PROTOCOL);
    } else if f.typ == T_GOAWAY {
      NoticeInv(n, f, s1, [GoAway(Get32(f.payload, 0), Get32(f.payload, 4))]);
    } else {
      NoticeInv(n, f, s1, [Capacity(Get32(f.payload, 0))]);
    }
  }

  // ---------------------------------------------------------------- any frame, any call

  /** Any received frame, from any peer, keeps the laws. */
  lemma ReceiveInv(n: Node, f: Frame, order: seq<Sid>)
    requires Inv(n) && Enumerates(order, n.s.streams.Keys)
    ensures Inv(Receive(n, f, order))
  {
    hide IdsOk, HelloOk, FlowOk, SidOk, WireOk, EncodeAll, OnSessionCredit, OnStreamCredit, OnHello, OnPing, OnGoAway,
      OnCapacity, OnSyn, OnStreamData, Get32;
    if n.s.dead {
    } else if IsHello(f) {
      HelloInv(n, f, order);
    } else if !n.s.helloSeen {
      DieInv(n, CODE_PROTOCOL);
    } else if f.typ == T_DATA {
      if HasSyn(f.flags) {
        SynInv(n, f, order);
      } else {
        StreamDataInv(n, f, order);
      }
    } else if f.typ == T_WINDOW_UPDATE {
      if |f.payload| != 4 {
        DieInv(n, CODE_PROTOCOL);
      } else if f.sid == SID_CONTROL {
        SessionCreditInInv(n, f, order);
      } else {
        StreamCreditInInv(n, f);
      }
    } else if f.typ == T_PING || f.typ == T_GOAWAY || f.typ == T_CAPACITY {
      ControlInv(n, f, order);
    } else {
      DieInv(n, CODE_PROTOCOL);
    }
  }

  lemma SynInv(n: Node, f: Frame, order: seq<Sid>)
    requires Inv(n) && !n.s.dead && n.s.helloSeen && IsSyn(f)
    ensures Inv(Receive(n, f, order))
  {
    hide IdsOk, HelloOk, FlowOk, SidOk, WireOk, EncodeAll, Admit, Emit, Remove, Queue, Refuses, SynIllegal;
    if SynIllegal(n.s, f) {
      DieInv(n, CODE_PROTOCOL);
    } else if Refuses(n.s) {
      RefuseInv(n, f, order);
    } else {
      AdmitInv(n, f, order);
    }
  }

  /** Any host call keeps the laws, as long as a dialer has ids left when it opens. */
  lemma CallInv(n: Node, c: Call)
    requires Inv(n) && (c.CallOpen? ==> IdsLeft(n))
    ensures Inv(Do(n, c))
  {
    hide Inv, DoOpen, DoWrite, DoClose, DoReset, DoConsume, DoCapacity, DoGoAway, DoTimer, DoAdvance, DoPop;
    match c
    case CallOpen(meta) => OpenInv(n, meta);
    case CallWrite(sid, p) => WriteInv(n, sid, p);
    case CallClose(sid) => CloseInv(n, sid);
    case CallReset(sid, code) => ResetInv(n, sid, code);
    case CallConsume(sid, k) => ConsumeInv(n, sid, k);
    case CallCapacity(w) => CapacityInv(n, w);
    case CallGoAway(r) => GoAwayInv(n, r);
    case CallTimer(now) => TimerInv(n, now);
    case CallAdvance(k) => AdvanceInv(n, k);
    case CallPop => PopInv(n);
  }

  /** A new session satisfies the laws. */
  lemma StartInv(raw: Config, role: Role)
    requires New(raw, role).Some?
    ensures Inv(Start(New(raw, role).value)) && MarksOk(Start(New(raw, role).value))
  {
    hide Encode, EncodeAll, GrowTo, WireOk, HelloPayload;
    var s0 := Blank(Resolve(raw), role);
    var n0 := Start(s0);
    assert Log(n0) == [];
    assert EncodeAll([]) == [] by { EncodeNothing(); }
    assert WireOk(role, []) by { WireNothing(role); }
    forall x: Sid ensures SidOk(n0, x) {
    }
    assert BlockedSet(s0.streams) == {};
    assert Inv(n0);
    if role.Dialer? {
      QuietEmit(n0, HelloFrame(s0, false));
      HelloSentInv(n0.(s := Emit(s0, HelloFrame(s0, false)).0));
    }
  }

  lemma EncodeNothing()
    ensures EncodeAll([]) == []
  {
  }

  lemma WireNothing(role: Role)
    ensures WireOk(role, [])
  {
  }
}
