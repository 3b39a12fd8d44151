/** Two sessions whose processed frames are prefixes of each other's output: what each may conclude
    about the other. */
module PairLaws {
  import opened Wire
  import opened Codec
  import opened Session
  import opened Greeting
  import opened Trace
  import opened Node
  import opened NodeReceive
  import opened NodeHonest

  /** Opposite ends of one tunnel: each has processed a prefix of what the other emitted. */
  ghost predicate Linked(x: Node, y: Node) {
    && Inv(x) && Inv(y)
    && y.s.role == Peer(x.s.role)
    && y.rcvd <= x.s.wire && x.rcvd <= y.s.wire
  }

  lemma LinkedSym(x: Node, y: Node)
    requires Linked(x, y)
    ensures Linked(y, x)
  {
    hide Inv;
  }

  /** The peer used no id before it was opened. */
  lemma UnusedIsSilent(x: Node, y: Node, sid: Sid)
    requires Linked(x, y) && !Used(y, sid)
    ensures Tr(y.rcvd, sid) == ZERO
  {
    hide HelloOk, FlowOk, EncodeAll, Tr, Hear, LastSyn, TotalData, WireOk;
    assert SidOk(x, sid) && SidOk(y, sid);
    TrPrefix(y.rcvd, x.s.wire, sid);
    TrPrefix(x.rcvd, y.s.wire, sid);
    if Own(x.s.role, sid) {
      WireOkPrefix(x.s.role, y.rcvd, x.s.wire);
      QuietAboveLastSyn(x.s.role, y.rcvd, sid);
    }
  }

  lemma LinkedDisciplined(x: Node, y: Node)
    requires Linked(x, y)
    ensures Disciplined(y)
  {
    hide SessOk, SidOk, EncodeAll, WireOk, Used, Tr;
    WireOkPrefix(x.s.role, y.rcvd, x.s.wire);
    forall sid: Sid | !Used(y, sid) ensures Tr(y.rcvd, sid) == ZERO {
      UnusedIsSilent(x, y, sid);
    }
  }

  /** The frame that `y` processes next. */
  function NextFrame(x: Node, y: Node): Frame
    requires |y.rcvd| < |x.s.wire|
  {
    x.s.wire[|y.rcvd|]
  }

  lemma NextFollows(x: Node, y: Node)
    requires Linked(x, y) && |y.rcvd| < |x.s.wire|
    ensures MayFollow(x.s.role, y.rcvd, NextFrame(x, y))
    ensures y.rcvd + [NextFrame(x, y)] <= x.s.wire
  {
    hide SessOk, SidOk, EncodeAll, MayFollow;
    assert x.s.wire[..|y.rcvd|] == y.rcvd;
  }

  lemma NextPolite(x: Node, y: Node)
    requires Linked(x, y) && |y.rcvd| < |x.s.wire|
    ensures Polite(y, NextFrame(x, y))
  {
    hide SessOk, SidOk, WireOk, EncodeAll, Tr, LastSyn, Used;
    var f := NextFrame(x, y);
    NextFollows(x, y);
    if !Used(y, f.sid) && (CarriesBytes(f) || (IsRst(f) && !IsSyn(f)) || IsCredit(f)) {
      UnusedIsSilent(x, y, f.sid);
      ControlIsUsed(y);
      TrAppend(y.rcvd, f, f.sid);
      TrPrefix(y.rcvd + [f], x.s.wire, f.sid);
      OwnSilent(x, y, f.sid);
      assert false;
    }
  }

  lemma ControlIsUsed(n: Node)
    ensures Used(n, SID_CONTROL)
  {
  }

  /** An unopened id of `y` has no frame on the whole wire of `x`. */
  lemma OwnSilent(x: Node, y: Node, sid: Sid)
    requires Linked(x, y) && !Used(y, sid)
    ensures Own(x.s.role, sid) || Tr(x.s.wire, sid) == ZERO
  {
    hide HelloOk, FlowOk, EncodeAll, Tr, Hear, LastSyn, TotalData, WireOk;
    assert SidOk(x, sid) && SidOk(y, sid);
    TrPrefix(x.rcvd, y.s.wire, sid);
  }

  // ---------------------------------------------------------------- greeting

  /** The greeting is the first frame and the only one of its kind; the peer's is remembered. */
  ghost predicate Introduced(n: Node) {
    && GoodConfig(n.s.cfg)
    && (n.s.role.Dialer? ==> n.s.wire != [])
    && (n.s.wire != [] ==> n.s.wire[0] == HelloFrame(n.s, n.s.role.Acceptor?))
    && (forall k :: 0 < k < |n.s.wire| ==> !IsHello(n.s.wire[k]))
    && (n.s.role.Acceptor? && !n.s.helloSeen ==> n.s.wire == [] && !n.s.helloSent)
    && (n.s.helloSeen && !n.s.dead ==> n.s.wire != [])
    && (n.rcvd != [] ==> n.peer == HelloParams(n.rcvd[0]))
  }

  /** Once greeted, an endpoint knows the peer's windows and cap. */
  lemma PeerKnown(x: Node, y: Node)
    requires Linked(x, y) && Introduced(x) && Introduced(y) && y.rcvd != []
    ensures y.peer == Learned(x.s.cfg)
    ensures y.s.peerInit == x.s.cfg.initWindow && y.s.peerMax == x.s.cfg.maxStreams
  {
    hide FlowOk, SidOk, WireOk, EncodeAll, ReadTlvs, TotalData, LastSyn;
    assert y.rcvd[0] == x.s.wire[0];
    HelloRoundTrip(x.s.cfg, DEFAULT_PARAMS);
  }

  /** Before it is greeted an endpoint has no stream, no window in use and nothing received. */
  lemma Ungreeted(n: Node)
    requires Inv(n) && n.rcvd == []
    ensures n.s.streams == map[] && TotalData(n.s.wire) == 0 && TotalIn(Log(n)) == 0 && (!n.s.dead ==> !n.s.helloSeen)
  {
    hide SidOk, WireOk, EncodeAll, LastSyn;
  }

  // ---------------------------------------------------------------- host obligations

  /** Hosts consume at most what was reported to them. */
  ghost predicate HostOk(n: Node) {
    && n.consumedTotal <= TotalIn(Log(n))
    && forall sid: Sid :: Consumed(n, sid) <= |Hear(Log(n), sid).data|
  }

  /** Connection credit in the other direction is covered by bytes sent. */
  lemma SessionCreditBound(x: Node, y: Node)
    requires Linked(x, y) && HostOk(x)
    ensures Tr(x.s.wire, SID_CONTROL).credit <= TotalData(y.s.wire)
    ensures x.s.recvWin <= x.s.cfg.sessionWindow
  {
    hide SidOk, WireOk, EncodeAll, Tr, TotalData, TotalIn, LastSyn;
    TrPrefix(x.rcvd, y.s.wire, SID_CONTROL);
  }

  lemma StreamCreditBound(x: Node, y: Node, sid: Sid)
    requires Linked(x, y) && HostOk(x) && sid != SID_CONTROL
    ensures Tr(x.s.wire, sid).credit <= |Tr(y.s.wire, sid).data|
  {
    hide SessOk, WireOk, EncodeAll, Tr, TotalData, TotalIn, LastSyn, Hear;
    assert SidOk(x, sid);
    TrPrefix(x.rcvd, y.s.wire, sid);
  }

  // ---------------------------------------------------------------- flow control across the link

  /** No data frame in flight overruns the receiver's connection window. */
  lemma ConnectionRoom(x: Node, y: Node)
    requires Linked(x, y) && Introduced(x) && Introduced(y)
    ensures TotalData(x.s.wire) - TotalData(y.rcvd) <= y.s.recvWin
  {
    hide SidOk, WireOk, EncodeAll, Tr, TotalData, TotalIn, LastSyn, ReadTlvs, HelloOk, Introduced;
    TrPrefix(x.rcvd, y.s.wire, SID_CONTROL);
    if x.rcvd != [] {
      LinkedSym(x, y);
      PeerKnown(y, x);
    } else {
      Ungreeted(x);
      TrPrefix(y.rcvd, x.s.wire, SID_CONTROL);
    }
  }

  /** Nor the window of its stream, while the receiver has the stream. */
  lemma StreamRoom(x: Node, y: Node, sid: Sid)
    requires Linked(x, y) && Introduced(x) && Introduced(y) && Exact(y) && sid in y.s.streams
    ensures |Tr(x.s.wire, sid).data| - |Tr(y.rcvd, sid).data| <= y.s.streams[sid].recvWin
  {
    hide SessOk, WireOk, EncodeAll, Tr, Hear, Introduced;
    assert SidOk(x, sid) && SidOk(y, sid) && ExactSid(y, sid);
    TrPrefix(x.rcvd, y.s.wire, sid);
    if x.rcvd != [] {
      LinkedSym(x, y);
      PeerKnown(y, x);
    } else {
      SilentStart(x, sid);
    }
  }

  lemma SilentStart(n: Node, sid: Sid)
    requires Inv(n) && n.rcvd == []
    ensures Tr(n.s.wire, sid).data == []
  {
    hide SidOk, WireOk, EncodeAll, Tr, FlowOk, IdsOk;
    DataBound(n.s.wire, sid);
  }

  lemma {:induction false} DataBound(w: seq<Frame>, sid: Sid)
    ensures |Tr(w, sid).data| <= TotalData(w)
    decreases |w|
  {
    if |w| > 0 {
      DataBound(w[..|w| - 1], sid);
    }
  }

  // ---------------------------------------------------------------- no violation is ever reported

  predicate Violation(e: Event) { e == Fatal(CODE_PROTOCOL) || e == Fatal(CODE_FLOW_CONTROL) }

  /** The step reports no violation by the peer, and delivers `d` bytes. */
  ghost predicate Clean(s: Session, s': Session, d: nat) {
    && s.events <= s'.events
    && (forall e :: e in s'.events[|s.events|..] ==> !Violation(e))
    && TotalIn(s'.events[|s.events|..]) == d
  }

  lemma CleanBy(s: Session, s': Session, es: seq<Event>)
    requires s'.events == s.events + es && forall e :: e in es ==> !Violation(e)
    ensures Clean(s, s', TotalIn(es))
  {
    assert s'.events[|s.events|..] == es;
  }

  lemma {:induction false} MuteTotal(es: seq<Event>)
    requires forall e :: e in es ==> !e.StreamData?
    ensures TotalIn(es) == 0
    decreases |es|
  {
    if |es| > 0 {
      assert es[|es| - 1] in es;
      MuteTotal(es[..|es| - 1]);
    }
  }

  lemma CleanMute(s: Session, s': Session, es: seq<Event>)
    requires s'.events == s.events + es && forall e :: e in es ==> !Violation(e) && !e.StreamData?
    ensures Clean(s, s', 0)
  {
    hide Clean, TotalIn;
    MuteTotal(es);
    CleanBy(s, s', es);
  }

  lemma CleanEmit(s: Session, f: Frame)
    ensures Clean(s, Emit(s, f).0, 0)
  {
    hide Encode, GrowTo, Clean;
    var s1 := Emit(s, f).0;
    if s1.events == s.events {
      assert s1.events == s.events + [];
      CleanMute(s, s1, []);
    } else {
      CleanMute(s, s1, [Fatal(CODE_INTERNAL)]);
    }
  }

  lemma CleanHello(s: Session, f: Frame, ack: bool)
    requires GoodConfig(s.cfg) && !s.helloSeen && f.sid == SID_CONTROL && !s.dead
    requires ReadTlvs(Params(s.peerMax, s.peerInit, s.sendWin, NO_INFO), f.payload, 0).1
    ensures Clean(s, OnHello(s, f, ack), 0)
  {
    hide ReadTlvs, Encode, GrowTo, HelloPayload, Clean;
    var s1 := OnHello(s, f, ack);
    var p := ReadTlvs(Params(s.peerMax, s.peerInit, s.sendWin, NO_INFO), f.payload, 0).0;
    if s1.dead {
      assert s1.events == s.events + [PeerHello(p.info), Fatal(CODE_INTERNAL)];
      CleanMute(s, s1, [PeerHello(p.info), Fatal(CODE_INTERNAL)]);
    } else {
      CleanMute(s, s1, [PeerHello(p.info)]);
    }
  }

  lemma CleanSyn(s: Session, f: Frame)
    requires !SynIllegal(s, f)
    ensures Clean(s, OnSyn(s, f), 0)
  {
    hide Emit, Clean, SynIllegal;
    var s1 := OnSyn(s, f);
    if Refuses(s) {
      CleanEmit(s, RstFrame(f.sid, CODE_REFUSED));
      CleanMore(s, Emit(s, RstFrame(f.sid, CODE_REFUSED)).0, s1);
    } else {
      var es := [StreamOpened(f.sid, f.payload)]
                + (if HasRst(f.flags) then [StreamReset(f.sid, CODE_NO_ERROR)]
                   else if HasFin(f.flags) then [StreamClosed(f.sid)] else []);
      assert s1.events == s.events + es;
      CleanMute(s, s1, es);
    }
  }

  lemma CleanMore(s: Session, s1: Session, s2: Session)
    requires Clean(s, s1, 0) && s2.events == s1.events
    ensures Clean(s, s2, 0)
  {
  }

  lemma TakeEvents(s: Session, f: Frame)
    requires f.sid in s.streams
    ensures TakeData(s, f).events == s.events + [StreamData(f.sid, f.payload)] && f.sid in TakeData(s, f).streams
    ensures TakeFin(s, f.sid).events == s.events + [StreamClosed(f.sid)]
  {
  }

  lemma CleanDelivery(s: Session, f: Frame)
    requires f.sid in s.streams
    ensures var s1 := if |f.payload| > 0 then TakeData(s, f) else s;
            Clean(s, s1, |f.payload|) && Clean(s, TakeFin(s1, f.sid), |f.payload|)
  {
    hide Clean, TakeData, TakeFin;
    var d := if |f.payload| > 0 then [StreamData(f.sid, f.payload)] else [];
    var s1 := if |f.payload| > 0 then TakeData(s, f) else s;
    TakeEvents(s, f);
    assert s1.events == s.events + d;
    HearAppend([], StreamData(f.sid, f.payload), f.sid);
    assert [] + [StreamData(f.sid, f.payload)] == [StreamData(f.sid, f.payload)];
    CleanBy(s, s1, d);
    TakeEvents(s1, f);
    assert TakeFin(s1, f.sid).events == s.events + (d + [StreamClosed(f.sid)]);
    HearAppend(d, StreamClosed(f.sid), f.sid);
    CleanBy(s, TakeFin(s1, f.sid), d + [StreamClosed(f.sid)]);
  }

  lemma CleanStreamData(s: Session, f: Frame)
    requires IsData(f) && !IsSyn(f) && f.sid != SID_CONTROL
    requires f.sid !in s.streams || HasRst(f.flags) || Deliverable(s, f)
    ensures Clean(s, OnStreamData(s, f), if CarriesBytes(f) && f.sid in s.streams then |f.payload| else 0)
  {
    hide Clean, Get32, AbortStream, TakeData, TakeFin;
    if f.sid !in s.streams {
      assert s.events == s.events + [];
      CleanMute(s, s, []);
    } else if HasRst(f.flags) {
      CleanMute(s, OnStreamData(s, f),
              [StreamReset(f.sid, if |f.payload| >= 4 then Get32(f.payload, 0) else CODE_NO_ERROR)]);
    } else {
      CleanDelivery(s, f);
    }
  }

  lemma CleanStreamCredit(s: Session, sid: Sid, c: U32)
    requires sid in s.streams ==> s.streams[sid].sendWin + c <= WINDOW_LIMIT
    ensures Clean(s, OnStreamCredit(s, sid, c), 0)
  {
    hide Clean;
    var s1 := OnStreamCredit(s, sid, c);
    var es := if s1.events == s.events then [] else [Writable(sid)];
    assert s1.events == s.events + es;
    CleanMute(s, s1, es);
  }

  lemma CleanSessionCredit(s: Session, c: U32, order: seq<Sid>)
    requires s.sendWin + c <= WINDOW_LIMIT
    ensures Clean(s, OnSessionCredit(s, c, order), 0)
  {
    hide Clean, Sweep;
    var s0 := s.(sendWin := s.sendWin + c);
    var es := SweepSwept(s0, order);
    var s1 := OnSessionCredit(s, c, order);
    if s1.events == s.events {
      assert s1.events == s.events + [];
      CleanMute(s, s1, []);
    } else {
      CleanMute(s, s1, es);
    }
  }

  lemma CleanControl(s: Session, f: Frame)
    requires f.sid == SID_CONTROL
    ensures |f.payload| == 8 ==> Clean(s, OnPing(s, f), 0) && Clean(s, OnGoAway(s, f), 0)
    ensures |f.payload| == 4 ==> Clean(s, OnCapacity(s, f), 0)
  {
    hide Clean, Emit, Get32;
    if |f.payload| == 8 {
      CleanEmit(s, Frame(T_PING, F_ACK, SID_CONTROL, f.payload));
      assert s.events + [] == s.events;
      CleanMute(s, s.(timer := s.timer.(outstanding := false)), []);
      CleanMute(s, OnGoAway(s, f), [GoAway(Get32(f.payload, 0), Get32(f.payload, 4))]);
    } else if |f.payload| == 4 {
      CleanMute(s, OnCapacity(s, f), [Capacity(Get32(f.payload, 0))]);
    }
  }

  // ---------------------------------------------------------------- the next frame is always legal

  /** The hypotheses under which `y` processes what `x` sent. */
  ghost predicate Ready(x: Node, y: Node) {
    && Linked(x, y) && Introduced(x) && Introduced(y) && Exact(y) && HostOk(x)
    && !y.s.dead && |y.rcvd| < |x.s.wire|
  }

  /** Exactly the first frame is a greeting. */
  lemma NextGreeting(x: Node, y: Node)
    requires Ready(x, y)
    ensures IsHello(NextFrame(x, y)) <==> y.rcvd == []
    ensures y.rcvd == [] <==> !y.s.helloSeen
  {
    hide FlowOk, SidOk, WireOk, EncodeAll, Exact, HostOk, TotalData, LastSyn, ReadTlvs, HelloPayload;
  }

  lemma NextHelloClean(x: Node, y: Node)
    requires Ready(x, y) && y.rcvd == []
    ensures var f := NextFrame(x, y); Clean(y.s, OnHello(y.s, f, f.typ == T_HELLO_ACK), 0)
  {
    hide FlowOk, SidOk, WireOk, EncodeAll, Exact, HostOk, TotalData, LastSyn, ReadTlvs, HelloPayload, OnHello, Clean;
    NextGreeting(x, y);
    HelloRoundTrip(x.s.cfg, DEFAULT_PARAMS);
    var f := NextFrame(x, y);
    CleanHello(y.s, f, f.typ == T_HELLO_ACK);
  }

  lemma NextSynLegal(x: Node, y: Node)
    requires Ready(x, y) && IsSyn(NextFrame(x, y))
    ensures !SynIllegal(y.s, NextFrame(x, y))
  {
    hide FlowOk, HelloOk, WireOk, EncodeAll, Exact, HostOk, Introduced, Tr, Hear, LastSyn, TotalData;
    var f := NextFrame(x, y);
    NextGreeting(x, y);
    NextFollows(x, y);
    assert SidOk(y, f.sid);
  }

  lemma NextDeliverable(x: Node, y: Node)
    requires Ready(x, y) && CarriesBytes(NextFrame(x, y)) && NextFrame(x, y).sid in y.s.streams
    ensures Deliverable(y.s, NextFrame(x, y))
  {
    hide SessOk, WireOk, EncodeAll, HostOk, Introduced, Tr, Hear, LastSyn, TotalData;
    var f := NextFrame(x, y);
    NextFollows(x, y);
    assert SidOk(y, f.sid) && ExactSid(y, f.sid);
    ConnectionRoom(x, y);
    StreamRoom(x, y, f.sid);
    TrAppend(y.rcvd, f, f.sid);
    TotalAppend(y.rcvd, f);
    TrPrefix(y.rcvd + [f], x.s.wire, f.sid);
  }

  lemma NextStreamCredit(x: Node, y: Node)
    requires Ready(x, y) && IsCredit(NextFrame(x, y)) && NextFrame(x, y).sid in y.s.streams
    ensures var f := NextFrame(x, y); y.s.streams[f.sid].sendWin + Get32(f.payload, 0) <= WINDOW_LIMIT
  {
    hide SessOk, WireOk, EncodeAll, Introduced, Tr, Hear, LastSyn, TotalData, Get32;
    var f := NextFrame(x, y);
    NextFollows(x, y);
    assert SidOk(y, f.sid);
    StreamCreditBound(x, y, f.sid);
    TrAppend(y.rcvd, f, f.sid);
    TrPrefix(y.rcvd + [f], x.s.wire, f.sid);
  }

  lemma NextSessionCredit(x: Node, y: Node)
    requires Ready(x, y) && IsCredit(NextFrame(x, y)) && NextFrame(x, y).sid == SID_CONTROL
    ensures y.s.sendWin + Get32(NextFrame(x, y).payload, 0) <= WINDOW_LIMIT
  {
    hide SidOk, IdsOk, HelloOk, WireOk, EncodeAll, Introduced, Tr, Hear, LastSyn, TotalData, TotalIn, Get32, ReadTlvs;
    var f := NextFrame(x, y);
    NextFollows(x, y);
    NextGreeting(x, y);
    PeerKnown(x, y);
    SessionCreditBound(x, y);
    TrAppend(y.rcvd, f, f.sid);
    TrPrefix(y.rcvd + [f], x.s.wire, f.sid);
  }

  /** Whatever an honest peer's next frame is, processing it reports no violation. */
  lemma NextClean(x: Node, y: Node, order: seq<Sid>)
    requires Ready(x, y)
    ensures var f := NextFrame(x, y);
            && GoodConfig(y.s.cfg)
            && Clean(y.s, Process(y.s, f, order), if CarriesBytes(f) && f.sid in y.s.streams then |f.payload| else 0)
  {
    hide Inv, Exact, HostOk, MayFollow, Clean, OnSyn, OnStreamData, OnStreamCredit, OnSessionCredit, OnHello,
      OnPing, OnGoAway, OnCapacity, Get32, Introduced, Deliverable, SynIllegal, NextFrame;
    ReadyConfig(x, y);
    var f := NextFrame(x, y);
    NextShape(x, y);
    NextGreeting(x, y);
    if IsHello(f) {
      NextHelloClean(x, y);
    } else if f.typ == T_DATA {
      if IsSyn(f) {
        NextSynLegal(x, y);
        CleanSyn(y.s, f);
      } else {
        if CarriesBytes(f) && f.sid in y.s.streams {
          NextDeliverable(x, y);
        }
        CleanStreamData(y.s, f);
      }
    } else if f.typ == T_WINDOW_UPDATE {
      if f.sid == SID_CONTROL {
        NextSessionCredit(x, y);
        CleanSessionCredit(y.s, Get32(f.payload, 0), order);
      } else {
        if f.sid in y.s.streams {
          NextStreamCredit(x, y);
        }
        CleanStreamCredit(y.s, f.sid, Get32(f.payload, 0));
      }
    } else {
      CleanControl(y.s, f);
    }
  }

  lemma ReadyConfig(x: Node, y: Node)
    requires Ready(x, y)
    ensures GoodConfig(y.s.cfg)
  {
    hide SidOk, WireOk, EncodeAll, Exact, HostOk;
  }

  lemma NextShape(x: Node, y: Node)
    requires Ready(x, y)
    ensures Shape(NextFrame(x, y))
  {
    hide Inv, Exact, HostOk, Introduced, Tr, LastSyn;
    NextFollows(x, y);
  }
}
