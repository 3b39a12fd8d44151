/** How often a stream is reported closed. Against any peer the first STREAM_CLOSED half-closes the stream, and
    another one comes of exactly one kind of frame: an empty FIN on a stream that is half-closed already. */
module Closing {
  import opened Wire
  import opened Codec
  import opened Session
  import opened Trace
  import opened Node
  import opened NodeReceive

  function Closings(log: seq<Event>, sid: Sid): nat { multiset(log)[StreamClosed(sid)] }

  lemma ClosingsConcat(a: seq<Event>, b: seq<Event>, sid: Sid)
    ensures Closings(a + b, sid) == Closings(a, sid) + Closings(b, sid)
  {
  }

  lemma {:induction false} ClosedIsCounted(log: seq<Event>, sid: Sid)
    ensures Hear(log, sid).closed <==> Closings(log, sid) > 0
    decreases |log|
  {
    if |log| > 0 {
      ClosedIsCounted(log[..|log| - 1], sid);
      assert log == log[..|log| - 1] + [log[|log| - 1]];
    }
  }

  lemma NoClosing(es: seq<Event>, sid: Sid)
    requires forall e :: e in es ==> Mute(e)
    ensures Closings(es, sid) == 0
  {
    assert StreamClosed(sid) !in es;
  }

  lemma QueueClosings(s: Session, e: Event, sid: Sid)
    ensures Closings(Queue(s, e).events, sid) == Closings(s.events, sid) + if e == StreamClosed(sid) then 1 else 0
  {
  }

  lemma FatalClosings(s: Session, code: U32, sid: Sid)
    ensures Closings(RaiseFatal(s, code).events, sid) == Closings(s.events, sid)
  {
  }

  lemma EmitClosings(s: Session, f: Frame, sid: Sid)
    ensures Closings(Emit(s, f).0.events, sid) == Closings(s.events, sid)
  {
    hide Encode, GrowTo, RaiseFatal;
    FatalClosings(s, CODE_INTERNAL, sid);
  }

  // ---------------------------------------------------------------- what one frame adds

  /** An end of stream that is taken: the stream is there, and the bytes before it are in order. */
  predicate FinTaken(s: Session, f: Frame, sid: Sid) {
    && f.typ == T_DATA && s.helloSeen && f.sid == sid && HasFin(f.flags) && !HasRst(f.flags)
    && if HasSyn(f.flags) then !SynIllegal(s, f) && !Refuses(s)
       else sid != SID_CONTROL && sid in s.streams
            && (f.payload == [] || (!s.streams[sid].life.HalfRemote?
                                    && |f.payload| <= s.recvWin && |f.payload| <= s.streams[sid].recvWin))
  }

  lemma SynClosings(s: Session, f: Frame, sid: Sid)
    requires s.helloSeen && IsSyn(f)
    ensures Closings(OnSyn(s, f).events, sid) == Closings(s.events, sid) + if FinTaken(s, f, sid) then 1 else 0
  {
    hide Emit, RaiseFatal, Closings, HasFin, HasRst, HasSyn, OddSid;
    FatalClosings(s, CODE_PROTOCOL, sid);
    if !SynIllegal(s, f) {
      EmitClosings(s, RstFrame(f.sid, CODE_REFUSED), sid);
      var s0 := s.(streams := s.streams[f.sid := Fresh(s)], maxRemote := f.sid);
      QueueClosings(s0, StreamOpened(f.sid, f.payload), sid);
      var s1 := Admit(s, f);
      assert s1.events == Queue(s0, StreamOpened(f.sid, f.payload)).events;
      QueueClosings(s1, StreamReset(f.sid, CODE_NO_ERROR), sid);
      QueueClosings(s1, StreamClosed(f.sid), sid);
    }
  }

  lemma AbortClosings(s: Session, sid: Sid, code: U32, x: Sid)
    requires sid in s.streams
    ensures Closings(AbortStream(s, sid, code).events, x) == Closings(s.events, x)
  {
    hide Encode, GrowTo;
  }

  lemma DataClosings(s: Session, f: Frame, sid: Sid)
    requires s.helloSeen && f.typ == T_DATA && !HasSyn(f.flags)
    ensures Closings(OnStreamData(s, f).events, sid) == Closings(s.events, sid) + if FinTaken(s, f, sid) then 1 else 0
  {
    hide AbortStream, RaiseFatal, Closings, HasFin, HasRst, HasSyn, Get32;
    FatalClosings(s, CODE_PROTOCOL, sid);
    FatalClosings(s, CODE_FLOW_CONTROL, sid);
    if f.sid in s.streams {
      AbortClosings(s, f.sid, CODE_PROTOCOL, sid);
      AbortClosings(s, f.sid, CODE_FLOW_CONTROL, sid);
      QueueClosings(s, StreamReset(f.sid, if |f.payload| >= 4 then Get32(f.payload, 0) else CODE_NO_ERROR), sid);
      QueueClosings(s, StreamData(f.sid, f.payload), sid);
      QueueClosings(s, StreamClosed(f.sid), sid);
      QueueClosings(TakeData(s, f), StreamClosed(f.sid), sid);
    }
  }

  lemma SweepClosings(s: Session, order: seq<Sid>, sid: Sid)
    ensures Closings(Sweep(s, order).events, sid) == Closings(s.events, sid)
  {
    hide Sweep;
    var es := SweepSwept(s, order);
    NoClosing(es, sid);
  }

  lemma CreditClosings(s: Session, f: Frame, order: seq<Sid>, sid: Sid)
    ensures Closings(OnWindowUpdate(s, f, order).events, sid) == Closings(s.events, sid)
  {
    hide Sweep, Get32;
    if |f.payload| == 4 {
      SweepClosings(s.(sendWin := s.sendWin + Get32(f.payload, 0)), order, sid);
    }
  }

  lemma NoticeClosings(s: Session, f: Frame, sid: Sid)
    ensures Closings(OnPing(s, f).events, sid) == Closings(s.events, sid)
    ensures Closings(OnGoAway(s, f).events, sid) == Closings(s.events, sid)
    ensures Closings(OnCapacity(s, f).events, sid) == Closings(s.events, sid)
  {
    hide Emit, RaiseFatal, Closings, Get32, HasAck;
    FatalClosings(s, CODE_PROTOCOL, sid);
    EmitClosings(s, Frame(T_PING, F_ACK, SID_CONTROL, f.payload), sid);
    if |f.payload| >= 8 {
      QueueClosings(s, GoAway(Get32(f.payload, 0), Get32(f.payload, 4)), sid);
    }
    if |f.payload| == 4 {
      QueueClosings(s, Capacity(Get32(f.payload, 0)), sid);
    }
  }

  lemma HelloClosings(s: Session, f: Frame, ack: bool, sid: Sid)
    requires GoodConfig(s.cfg)
    ensures Closings(OnHello(s, f, ack).events, sid) == Closings(s.events, sid)
  {
    hide Emit, RaiseFatal, Closings, HelloPayload, ReadTlvs;
    FatalClosings(s, CODE_PROTOCOL, sid);
    var (p, _) := ReadTlvs(Params(s.peerMax, s.peerInit, s.sendWin, NO_INFO), f.payload, 0);
    var s1 := s.(peerMax := p.peerMax, peerInit := p.peerInit, sendWin := p.sendWin);
    FatalClosings(s1, CODE_PROTOCOL, sid);
    var s2 := Queue(s1.(helloSeen := true), PeerHello(p.info));
    QueueClosings(s1.(helloSeen := true), PeerHello(p.info), sid);
    EmitClosings(s2, HelloFrame(s2, true), sid);
  }

  /** Exactly which frame is reported as a closing. */
  lemma FrameClosings(s: Session, f: Frame, order: seq<Sid>, sid: Sid)
    requires GoodConfig(s.cfg)
    ensures Closings(Process(s, f, order).events, sid)
            == Closings(s.events, sid) + if FinTaken(s, f, sid) then 1 else 0
  {
    hide OnSyn, OnStreamData, OnWindowUpdate, OnPing, OnGoAway, OnCapacity, OnHello, HasSyn, SynIllegal, HasFin, HasRst,
      Closings, RaiseFatal;
    if s.helloSeen && f.typ == T_DATA {
      if HasSyn(f.flags) {
        SynClosings(s, f, sid);
      } else {
        DataClosings(s, f, sid);
      }
    }
    CreditClosings(s, f, order, sid);
    NoticeClosings(s, f, sid);
    HelloClosings(s, f, true, sid);
    HelloClosings(s, f, false, sid);
    FatalClosings(s, CODE_PROTOCOL, sid);
  }

  // ---------------------------------------------------------------- a second closing

  /** An empty FIN, without RST, on a live stream whose peer has finished already. */
  predicate RepeatsFin(s: Session, f: Frame, sid: Sid) {
    && f.typ == T_DATA && !HasSyn(f.flags) && !HasRst(f.flags) && HasFin(f.flags) && f.payload == [] && f.sid == sid
    && sid in s.streams && s.streams[sid].life.HalfRemote?
  }

  /** Against any peer: once a stream was reported closed, a received frame reports it closed again if and
      only if it repeats the FIN on the live, half-closed stream; and then it changes nothing else. */
  lemma SecondClosingExactly(n: Node, f: Frame, order: seq<Sid>, sid: Sid)
    requires Inv(n) && GoodConfig(n.s.cfg) && !n.s.dead && n.s.helloSeen && Closings(Log(n), sid) > 0
    ensures Closings(Log(Receive(n, f, order)), sid)
            == Closings(Log(n), sid) + if RepeatsFin(n.s, f, sid) then 1 else 0
    ensures RepeatsFin(n.s, f, sid) ==> Receive(n, f, order).s == Queue(n.s, StreamClosed(sid))
  {
    hide SessOk, WireOk, EncodeAll, Process, Tr, Hear, HasSyn, HasFin, HasRst, OddSid;
    FrameClosings(n.s, f, order, sid);
    ReceivedClosings(n, f, order, sid);
    ClosedIsCounted(Log(n), sid);
    assert SidOk(n, sid);
    if RepeatsFin(n.s, f, sid) {
      RepeatOnlyReports(n.s, f, order);
    }
  }

  lemma ReceivedClosings(n: Node, f: Frame, order: seq<Sid>, sid: Sid)
    requires GoodConfig(n.s.cfg) && !n.s.dead
    ensures Closings(Log(Receive(n, f, order)), sid)
            == Closings(n.popped, sid) + Closings(Process(n.s, f, order).events, sid)
    ensures Closings(Log(n), sid) == Closings(n.popped, sid) + Closings(n.s.events, sid)
    ensures Receive(n, f, order).s == Process(n.s, f, order)
  {
    hide Process;
  }

  /** The input on which "closed at most once" fails: the stream stays as it is, so every such frame adds one. */
  lemma RepeatOnlyReports(s: Session, f: Frame, order: seq<Sid>)
    requires GoodConfig(s.cfg) && s.helloSeen && RepeatsFin(s, f, f.sid) && f.sid != SID_CONTROL
    ensures Process(s, f, order) == Queue(s, StreamClosed(f.sid))
    ensures RepeatsFin(Process(s, f, order), f, f.sid)
  {
    hide HasSyn, HasFin, HasRst, Get32;
    var st := s.streams[f.sid];
    assert s.streams[f.sid := st.(life := HalfRemote)] == s.streams;
  }

  // ---------------------------------------------------------------- disciplined peers

  ghost predicate ClosedOnce(n: Node) { forall sid: Sid :: Closings(Log(n), sid) <= 1 }

  /** A frame that may follow what was processed never repeats a FIN. */
  lemma DisciplinedClosings(n: Node, role: Role, f: Frame, order: seq<Sid>)
    requires Inv(n) && ClosedOnce(n) && GoodConfig(n.s.cfg) && MayFollow(role, n.rcvd, f)
    ensures ClosedOnce(Receive(n, f, order))
  {
    hide SessOk, WireOk, EncodeAll, Process, Tr, Hear, HasSyn, HasFin, HasRst, OddSid, Closings;
    if !n.s.dead {
      forall sid: Sid ensures Closings(Log(Receive(n, f, order)), sid) <= 1 {
        FrameClosings(n.s, f, order, sid);
        ReceivedClosings(n, f, order, sid);
        assert SidOk(n, sid);
        if Closings(Log(n), sid) > 0 && n.s.helloSeen {
          SecondClosingExactly(n, f, order, sid);
        }
      }
    }
  }

  lemma MuteClosings(n: Node, n': Node, es: seq<Event>)
    requires ClosedOnce(n) && Log(n') == Log(n) + es && forall e :: e in es ==> Mute(e)
    ensures ClosedOnce(n')
  {
    hide Closings;
    forall sid: Sid ensures Closings(Log(n'), sid) <= 1 {
      ClosingsConcat(Log(n), es, sid);
      NoClosing(es, sid);
    }
  }
}
