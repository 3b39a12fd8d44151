/** One session against an arbitrary peer, over whole runs: the receive-memory cap, the half-window
    watermark and the wake-up guarantee. */
module NodeRuns {
  import opened Wire
  import opened Codec
  import opened Session
  import opened Trace
  import opened Node
  import opened NodeSteps
  import opened NodeSend
  import opened NodeConsume
  import opened NodeReceive
  import opened NodeControl

  // ---------------------------------------------------------------- what a step does to the flags

  /** Frames and events only accumulate, and only an acceptor that has not been greeted greets. */
  ghost predicate Grows(s: Session, s': Session) {
    && s.events <= s'.events && s.wire <= s'.wire && s'.role == s.role && (s.helloSeen ==> s'.helloSeen)
    && (s.helloSeen || s.role.Dialer? ==> forall k :: |s.wire| <= k < |s'.wire| ==> !IsHello(s'.wire[k]))
  }

  /** A blocked flag is not cleared silently. */
  ghost predicate Wakes(s: Session, s': Session) {
    && Grows(s, s')
    && (forall x :: x in s.streams && x in s'.streams && s.streams[x].blocked && !s'.streams[x].blocked ==>
          Writable(x) in s'.events[|s.events|..])
  }

  /** No credit becomes pending. */
  ghost predicate Tidy(s: Session, s': Session) {
    && Wakes(s, s')
    && s'.cfg == s.cfg && s'.recvPending == s.recvPending && (s.dead ==> s'.dead)
    && (forall x :: x in s'.streams ==>
          s'.streams[x].recvPending == if x in s.streams then s.streams[x].recvPending else 0)
  }

  lemma GrowsTrans(a: Session, b: Session, c: Session)
    requires Grows(a, b) && Grows(b, c)
    ensures Grows(a, c)
  {
  }

  lemma TidyTrans(a: Session, b: Session, c: Session)
    requires Tidy(a, b) && Tidy(b, c)
    requires forall x :: x in c.streams && x in a.streams ==> x in b.streams
    requires forall x :: x in b.streams && x in c.streams && x !in a.streams ==> b.streams[x].recvPending == 0
    ensures Tidy(a, c)
  {
    forall x | x in a.streams && x in c.streams && a.streams[x].blocked && !c.streams[x].blocked
      ensures Writable(x) in c.events[|a.events|..]
    {
      assert c.events[..|b.events|] == b.events;
      assert c.events[|a.events|..] == b.events[|a.events|..] + c.events[|b.events|..];
    }
  }

  lemma TidyEmit(s: Session, f: Frame)
    requires !IsHello(f)
    ensures Tidy(s, Emit(s, f).0)
  {
    hide Encode, GrowTo;
    var s1 := Emit(s, f).0;
    assert s.events <= s1.events;
  }

  /** One record changes, or comes, or goes. */
  lemma TidyRecord(s: Session, s': Session, sid: Sid, es: seq<Event>)
    requires s'.cfg == s.cfg && s'.recvPending == s.recvPending && s'.dead == s.dead && s'.events == s.events + es
    requires s'.role == s.role && s'.helloSeen == s.helloSeen && s.wire <= s'.wire
    requires forall k :: |s.wire| <= k < |s'.wire| ==> !IsHello(s'.wire[k])
    requires s'.streams.Keys - {sid} == s.streams.Keys - {sid}
    requires forall x :: x in s.streams && x in s'.streams && x != sid ==> s'.streams[x] == s.streams[x]
    requires sid in s'.streams ==>
               s'.streams[sid].recvPending == if sid in s.streams then s.streams[sid].recvPending else 0
    requires sid in s.streams && sid in s'.streams && s.streams[sid].blocked && !s'.streams[sid].blocked ==>
               Writable(sid) in es
    ensures Tidy(s, s')
  {
    forall x | x in s'.streams && x != sid ensures x in s.streams {
      assert x in s'.streams.Keys - {sid};
    }
    assert s'.events[|s.events|..] == es;
  }

  lemma TidySyn(s: Session, f: Frame)
    ensures Tidy(s, OnSyn(s, f))
  {
    hide SynIllegal, Emit, Tidy;
    var s1 := OnSyn(s, f);
    TidyFatal(s, CODE_PROTOCOL);
    TidyEmit(s, RstFrame(f.sid, CODE_REFUSED));
    if SynIllegal(s, f) {
    } else if Refuses(s) {
      TidyMaxRemote(s, Emit(s, RstFrame(f.sid, CODE_REFUSED)).0, f.sid);
    } else {
      SynRecord(s, f);
    }
  }

  lemma TidyFatal(s: Session, code: U32)
    ensures Tidy(s, RaiseFatal(s, code))
  {
    var s1 := RaiseFatal(s, code);
    assert s.events <= s1.events;
  }

  lemma TidyMaxRemote(s: Session, s1: Session, sid: Sid)
    requires Tidy(s, s1)
    ensures Tidy(s, s1.(maxRemote := sid))
  {
  }

  lemma SynRecord(s: Session, f: Frame)
    requires !SynIllegal(s, f) && !Refuses(s)
    ensures Tidy(s, OnSyn(s, f))
  {
    hide Tidy, Emit;
    var s1 := OnSyn(s, f);
    var es := [StreamOpened(f.sid, f.payload)]
              + (if HasRst(f.flags) then [StreamReset(f.sid, CODE_NO_ERROR)]
                 else if HasFin(f.flags) then [StreamClosed(f.sid)] else []);
    assert s1.events == s.events + es;
    TidyRecord(s, s1, f.sid, es);
  }

  lemma TidyRemove(s: Session, sid: Sid)
    requires sid in s.streams
    ensures Tidy(s, Remove(s, sid))
  {
  }

  lemma TidyAbort(s: Session, sid: Sid, code: U32)
    requires sid in s.streams
    ensures Tidy(s, AbortStream(s, sid, code))
  {
    hide Encode, GrowTo, Remove;
    var s1 := Emit(s, RstFrame(sid, code)).0;
    TidyEmit(s, RstFrame(sid, code));
    var s2 := Queue(s1, StreamReset(sid, CODE_NO_ERROR));
    TidyTrans(s, s1, s2);
    TidyRemove(s2, sid);
    TidyTrans(s, s2, Remove(s2, sid));
  }

  lemma TidyStreamData(s: Session, f: Frame)
    ensures Tidy(s, OnStreamData(s, f))
  {
    hide AbortStream, Tidy, TakeData, TakeFin;
    TidyFatal(s, CODE_PROTOCOL);
    TidyFatal(s, CODE_FLOW_CONTROL);
    if f.sid !in s.streams || f.sid == SID_CONTROL {
      TidyRefl(s);
    } else {
      TidyAbort(s, f.sid, CODE_PROTOCOL);
      TidyAbort(s, f.sid, CODE_FLOW_CONTROL);
      if HasRst(f.flags) {
        var code := if |f.payload| >= 4 then Get32(f.payload, 0) else CODE_NO_ERROR;
        TidyRecord(s, Remove(Queue(s, StreamReset(f.sid, code)), f.sid), f.sid, [StreamReset(f.sid, code)]);
      } else {
        TidyDeliver(s, f);
      }
    }
  }

  lemma TidyRefl(s: Session)
    ensures Tidy(s, s)
  {
  }

  lemma TidyTake(s: Session, f: Frame)
    requires f.sid in s.streams
    ensures Tidy(s, TakeData(s, f))
  {
    hide Tidy;
    TidyRecord(s, TakeData(s, f), f.sid, [StreamData(f.sid, f.payload)]);
  }

  lemma TidyFin(s: Session, sid: Sid)
    requires sid in s.streams
    ensures Tidy(s, TakeFin(s, sid))
  {
    hide Tidy;
    TidyRecord(s, TakeFin(s, sid), sid, [StreamClosed(sid)]);
  }

  lemma TidyDeliver(s: Session, f: Frame)
    requires f.sid in s.streams
    ensures var s1 := if |f.payload| > 0 then TakeData(s, f) else s;
            Tidy(s, s1) && Tidy(s, TakeFin(s1, f.sid))
  {
    hide Tidy;
    var s1 := if |f.payload| > 0 then TakeData(s, f) else s;
    TidyTake(s, f);
    TidyRefl(s);
    TidyFin(s1, f.sid);
    TidyTrans(s, s1, TakeFin(s1, f.sid));
  }

  lemma TidyStreamCredit(s: Session, sid: Sid, c: U32)
    ensures Tidy(s, OnStreamCredit(s, sid, c))
  {
    hide Tidy, Wake;
    TidyRefl(s);
    if sid in s.streams {
      var st := s.streams[sid];
      var s0 := s.(streams := s.streams[sid := st.(sendWin := st.sendWin + c)]);
      assert s0.events == s.events + [];
      TidyRecord(s, s0, sid, []);
      TidyThenFatal(s, s0, CODE_FLOW_CONTROL);
      TidyThenWake(s, s0, sid);
    }
  }

  lemma TidyThenWake(s: Session, s0: Session, sid: Sid)
    requires Tidy(s, s0) && s0.streams.Keys == s.streams.Keys && sid in s0.streams
    ensures Tidy(s, Wake(s0, sid))
  {
    hide Tidy, Wake;
    var s1 := Wake(s0, sid);
    WakeShape(s0, sid);
    if s1 != s0 {
      TidyRecord(s0, s1, sid, [Writable(sid)]);
      TidyTrans(s, s0, s1);
    }
  }

  lemma WakeShape(s: Session, sid: Sid)
    requires sid in s.streams
    ensures var s1 := Wake(s, sid);
            || s1 == s
            || s1 == s.(streams := s.streams[sid := s.streams[sid].(blocked := false)],
                        blockedCount := s.blockedCount - 1, events := s.events + [Writable(sid)])
  {
  }

  lemma TidyThenFatal(s: Session, s0: Session, code: U32)
    requires Tidy(s, s0) && s0.streams.Keys == s.streams.Keys
    ensures Tidy(s, RaiseFatal(s0, code))
  {
    TidyFatal(s0, code);
    TidyTrans(s, s0, RaiseFatal(s0, code));
  }

  lemma TidySessionCredit(s: Session, c: U32, order: seq<Sid>)
    ensures Tidy(s, OnSessionCredit(s, c, order))
  {
    hide Sweep, Tidy;
    var s0 := s.(sendWin := s.sendWin + c);
    assert s0.events == s.events + [];
    TidyRecord(s, s0, SID_CONTROL, []);
    TidyThenFatal(s, s0, CODE_FLOW_CONTROL);
    TidySweep(s0, order);
    TidyTrans(s, s0, Sweep(s0, order));
  }

  lemma TidySweep(s: Session, order: seq<Sid>)
    ensures Tidy(s, Sweep(s, order))
  {
    hide Sweep;
    var es := SweepSwept(s, order);
    var s1 := Sweep(s, order);
    assert s1.events[|s.events|..] == es;
    forall x | x in s1.streams ensures s1.streams[x].recvPending == s.streams[x].recvPending {
      assert s1.streams[x] == Woken(s.streams[x], x in order);
    }
  }

  lemma TidyHello(s: Session, f: Frame, ack: bool)
    requires GoodConfig(s.cfg)
    ensures Tidy(s, OnHello(s, f, ack))
  {
    hide Encode, GrowTo, ReadTlvs, HelloPayload;
    var s1 := OnHello(s, f, ack);
    assert s.events <= s1.events;
  }

  lemma TidyProcess(s: Session, f: Frame, order: seq<Sid>)
    requires GoodConfig(s.cfg)
    ensures Tidy(s, Process(s, f, order))
  {
    hide OnSyn, OnStreamData, OnStreamCredit, OnSessionCredit, OnHello, OnPing, OnGoAway, OnCapacity, Tidy, Get32;
    TidyFatal(s, CODE_PROTOCOL);
    if f.typ == T_DATA {
      TidySyn(s, f);
      TidyStreamData(s, f);
    } else if f.typ == T_WINDOW_UPDATE {
      if |f.payload| == 4 {
        TidyStreamCredit(s, f.sid, Get32(f.payload, 0));
        TidySessionCredit(s, Get32(f.payload, 0), order);
      }
    } else if IsHello(f) {
      TidyHello(s, f, false);
      TidyHello(s, f, true);
    } else {
      TidyControl(s, f);
    }
  }

  lemma TidyControl(s: Session, f: Frame)
    ensures Tidy(s, OnPing(s, f)) && Tidy(s, OnGoAway(s, f)) && Tidy(s, OnCapacity(s, f))
  {
    hide Emit, Get32;
    TidyFatal(s, CODE_PROTOCOL);
    if |f.payload| == 8 {
      TidyEmit(s, Frame(T_PING, F_ACK, SID_CONTROL, f.payload));
    }
  }

  // ---------------------------------------------------------------- host calls

  lemma TidyWrite(s: Session, sid: Sid, p: seq<Byte>)
    ensures Tidy(s, WriteStream(s, sid, p).0)
  {
    hide SendAll, Tidy;
    var s2 := WriteStream(s, sid, p).0;
    TidyRefl(s);
    if s2 != s {
      var room := Min(s.streams[sid].sendWin, s.sendWin);
      if room <= 0 {
        assert s2.events == s.events + [];
        TidyRecord(s, s2, sid, []);
      } else {
        var q := p[..Min(|p|, room)];
        SendAllPostHolds(s, sid, q);
        SendAllEvents(s, sid, q);
        var s1 := SendAll(s, sid, q).0;
        TidySent(s, sid, q);
        if s2 != s1 {
          assert s2.events == s1.events + [];
          TidyRecord(s1, s2, sid, []);
          TidyTrans(s, s1, s2);
        }
      }
    }
  }

  lemma {:induction false} SendAllEvents(s: Session, sid: Sid, p: seq<Byte>)
    requires sid in s.streams
    ensures Grows(s, SendAll(s, sid, p).0)
    decreases |p|
  {
    hide Emit, Encode;
    if |p| > 0 {
      var c := Min(|p|, MAX_DATA_FRAME);
      var (s1, ok) := SendChunk(s, sid, p[..c]);
      TidyEmit(s, DataFrame(sid, p[..c]));
      if ok {
        SendAllEvents(s1, sid, p[c..]);
        GrowsTrans(s, s1, SendAll(s1, sid, p[c..]).0);
      }
    }
  }

  lemma TidySent(s: Session, sid: Sid, p: seq<Byte>)
    requires sid in s.streams
    ensures Tidy(s, SendAll(s, sid, p).0)
  {
    hide SendAll;
    SendAllPostHolds(s, sid, p);
    SendAllEvents(s, sid, p);
  }

  lemma TidyClose(s: Session, sid: Sid)
    ensures Tidy(s, CloseStream(s, sid).0)
  {
    hide Emit, Tidy, Remove;
    TidyRefl(s);
    if !s.dead && sid in s.streams {
      TidyEmit(s, FinFrame(sid));
      EmitKeeps(s, FinFrame(sid));
      var s1 := Emit(s, FinFrame(sid)).0;
      TidyRemove(s1, sid);
      RemoveKeys(s1, sid);
      TidyTrans(s, s1, Remove(s1, sid));
      TidyHalfClose(s, s1, sid);
    }
  }

  lemma TidyHalfClose(s: Session, s1: Session, sid: Sid)
    requires Tidy(s, s1) && sid in s1.streams && s1.streams == s.streams
    ensures Tidy(s, s1.(streams := s1.streams[sid := s.streams[sid].(life := HalfLocal)]))
  {
  }

  lemma TidyReset(s: Session, sid: Sid, code: U32)
    ensures Tidy(s, ResetStream(s, sid, code).0)
  {
    hide Emit, Tidy, Remove;
    TidyRefl(s);
    if !s.dead && sid in s.streams {
      TidyEmit(s, RstFrame(sid, code));
      EmitKeeps(s, RstFrame(sid, code));
      var s1 := Emit(s, RstFrame(sid, code)).0;
      TidyRemove(s1, sid);
      RemoveKeys(s1, sid);
      TidyTrans(s, s1, Remove(s1, sid));
    }
  }

  lemma RemoveKeys(s: Session, sid: Sid)
    requires sid in s.streams
    ensures Remove(s, sid).streams.Keys == s.streams.Keys - {sid}
  {
  }

  lemma TidyOpen(s: Session, meta: seq<Byte>)
    requires s.nextSid !in s.streams
    ensures Tidy(s, OpenStream(s, meta).0)
  {
    hide Encode, GrowTo, Tidy;
    TidyRefl(s);
    var (s2, r) := OpenStream(s, meta);
    if r >= 0 {
      assert s2.events == s.events + [];
      TidyRecord(s, s2, r, []);
    } else if s2 != s {
      assert s2 == RaiseFatal(s.(nextSid := s2.nextSid), CODE_INTERNAL);
      TidyFatal(s, CODE_INTERNAL);
      assert s2 == RaiseFatal(s, CODE_INTERNAL).(nextSid := s2.nextSid);
      TidyNextSid(s, RaiseFatal(s, CODE_INTERNAL), s2.nextSid);
    }
  }

  lemma TidyNextSid(s: Session, s1: Session, sid: Sid)
    requires Tidy(s, s1)
    ensures Tidy(s, s1.(nextSid := sid))
  {
  }

  lemma TidyCapacity(s: Session, w: U32)
    ensures Tidy(s, SendCapacity(s, w).0)
  {
    hide Emit, Tidy;
    TidyRefl(s);
    TidyEmit(s, Frame(T_CAPACITY, 0, SID_CONTROL, Put32(w)));
  }

  lemma TidyGoAway(s: Session, reason: U32)
    ensures Tidy(s, SendGoAway(s, reason).0)
  {
    hide Emit, Encode;
    TidyEmit(s.(localGoaway := true), Frame(T_GOAWAY, 0, SID_CONTROL, Put32(reason) + Put32(s.maxRemote)));
  }

  lemma TidyTimer(s: Session, now: nat)
    ensures Tidy(s, OnTimer(s, now).0)
  {
    hide Emit, Encode;
    TidyEmit(s, PingFrame(s.timer.nonce));
    TidyFatal(s, CODE_INTERNAL);
  }

  /** Every call that emits nothing but its own frames is tidy. */
  lemma TidyCall(n: Node, c: Call)
    requires Inv(n) && (c.CallOpen? ==> IdsLeft(n)) && !c.CallConsume? && !c.CallPop? && !c.CallAdvance?
    ensures Tidy(n.s, Do(n, c).s)
  {
    hide Tidy, IdsOk, HelloOk, FlowOk, WireOk, EncodeAll, SidOk, OpenStream, WriteStream, CloseStream, ResetStream,
      SendCapacity, SendGoAway, OnTimer, Consume, PopEvent, Advance;
    match c
    case CallOpen(meta) =>
      NextSidFresh(n);
      TidyOpen(n.s, meta);
    case CallWrite(sid, p) => TidyWrite(n.s, sid, p);
    case CallClose(sid) => TidyClose(n.s, sid);
    case CallReset(sid, code) => TidyReset(n.s, sid, code);
    case CallCapacity(w) => TidyCapacity(n.s, w);
    case CallGoAway(r) => TidyGoAway(n.s, r);
    case CallTimer(now) => TidyTimer(n.s, now);
    case CallConsume(_, _) =>
    case CallAdvance(_) =>
    case CallPop =>
  }

  lemma NextSidFresh(n: Node)
    requires Inv(n) && IdsLeft(n)
    ensures n.s.nextSid !in n.s.streams
  {
    hide WireOk, EncodeAll, Tr, Hear, TotalData, TotalIn, LastSyn;
    assert SidOk(n, n.s.nextSid);
    if n.s.nextSid != SID_CONTROL {
      NextSid(n);
    }
  }

  lemma {:induction false} SessionCreditWakes(s: Session)
    ensures Grows(s, EmitSessionCredit(s))
    decreases s.recvPending
  {
    hide Emit;
    if s.recvPending > 0 {
      var c := CreditChunk(s.recvPending);
      var (s1, ok) := Emit(s, CreditFrame(SID_CONTROL, c));
      EmitKeeps(s, CreditFrame(SID_CONTROL, c));
      TidyEmit(s, CreditFrame(SID_CONTROL, c));
      if ok {
        SessionCreditWakes(s1.(recvWin := s1.recvWin + c, recvPending := s1.recvPending - c));
      }
    }
  }

  lemma {:induction false} StreamCreditWakes(s: Session, sid: Sid)
    requires sid in s.streams
    ensures var s1 := EmitStreamCredit(s, sid);
            Grows(s, s1) && sid in s1.streams && s1.streams[sid].blocked == s.streams[sid].blocked
    decreases s.streams[sid].recvPending
  {
    hide Emit;
    var st := s.streams[sid];
    if st.recvPending > 0 {
      var c := CreditChunk(st.recvPending);
      var (s1, ok) := Emit(s, CreditFrame(sid, c));
      EmitKeeps(s, CreditFrame(sid, c));
      TidyEmit(s, CreditFrame(sid, c));
      if ok {
        StreamCreditWakes(s1.(streams := s1.streams[sid := st.(recvWin := st.recvWin + c,
                                                                recvPending := st.recvPending - c)]), sid);
      }
    }
  }

  /** Consuming never touches a blocked flag. */
  lemma ConsumeWakes(s: Session, sid: Sid, k: nat)
    ensures Wakes(s, Consume(s, sid, k).0)
  {
    hide EmitSessionCredit, EmitStreamCredit;
    var s1 := AddPending(s, k);
    EmitSessionCreditPost(s1);
    SessionCreditWakes(s1);
    var s2 := CreditSession(s1);
    if sid in s2.streams {
      var s3 := AddStreamPending(s2, sid, k);
      EmitStreamCreditPost(s3, sid);
      StreamCreditWakes(s3, sid);
    }
  }

  // ---------------------------------------------------------------- runs against any peer

  /** One step of a session's life: a host call, a whole frame from the peer, or bytes from the peer
      that are not a frame. */
  datatype Step = HostCall(c: Call) | PeerFrame(f: Frame, order: seq<Sid>) | PeerGarbage

  ghost predicate Enabled(n: Node, st: Step) {
    match st
    case HostCall(c) => c.CallOpen? ==> IdsLeft(n)
    case PeerFrame(f, order) => Enumerates(order, n.s.streams.Keys)
    case PeerGarbage => true
  }

  function Next(n: Node, st: Step): Node
    requires GoodConfig(n.s.cfg)
  {
    match st
    case HostCall(c) => Do(n, c)
    case PeerFrame(f, order) => Receive(n, f, order)
    case PeerGarbage => n.(s := RaiseFatal(n.s, CODE_PROTOCOL))
  }

  lemma InvConfig(n: Node)
    requires Inv(n)
    ensures GoodConfig(n.s.cfg)
  {
  }

  lemma StepInv(n: Node, st: Step)
    requires Inv(n) && Enabled(n, st)
    ensures GoodConfig(n.s.cfg) && Inv(Next(n, st))
  {
    hide Inv, Do, Receive;
    InvConfig(n);
    match st
    case HostCall(c) => CallInv(n, c);
    case PeerFrame(f, order) => ReceiveInv(n, f, order);
    case PeerGarbage => DieInv(n, CODE_PROTOCOL);
  }

  lemma TidyMarks(n: Node, n': Node)
    requires MarksOk(n) && Tidy(n.s, n'.s)
    ensures MarksOk(n')
  {
  }

  lemma StepMarks(n: Node, st: Step)
    requires Inv(n) && MarksOk(n) && Enabled(n, st)
    ensures GoodConfig(n.s.cfg) && MarksOk(Next(n, st))
  {
    hide Inv, Do, Process, Tidy, MarksOk;
    InvConfig(n);
    match st
    case HostCall(c) =>
      if c.CallConsume? || c.CallPop? || c.CallAdvance? {
        QuietMarks(n, c);
      } else {
        TidyCall(n, c);
        TidyMarks(n, Do(n, c));
      }
    case PeerFrame(f, order) =>
      if !n.s.dead {
        TidyProcess(n.s, f, order);
        TidyMarks(n, Receive(n, f, order));
      }
    case PeerGarbage =>
      TidyFatal(n.s, CODE_PROTOCOL);
      TidyMarks(n, Next(n, st));
  }

  lemma QuietMarks(n: Node, c: Call)
    requires Inv(n) && MarksOk(n) && (c.CallConsume? || c.CallPop? || c.CallAdvance?)
    ensures MarksOk(Do(n, c))
  {
    hide Inv, DoOpen, DoWrite, DoClose, DoReset, DoConsume, DoCapacity, DoGoAway, DoTimer;
    if c.CallConsume? {
      ConsumeInv(n, c.sid, c.n);
    }
  }

  /** A run: any interleaving of host calls and peer input, from a new session. */
  ghost predicate IsRun(raw: Config, role: Role, ns: seq<Node>, sts: seq<Step>) {
    && New(raw, role).Some?
    && |ns| == |sts| + 1 && ns[0] == Start(New(raw, role).value)
    && forall i :: 0 <= i < |sts| ==>
         GoodConfig(ns[i].s.cfg) && Enabled(ns[i], sts[i]) && ns[i + 1] == Next(ns[i], sts[i])
  }

  /** Every state of every run, whatever the peer sends, satisfies the session laws. */
  lemma {:induction false} RunInv(raw: Config, role: Role, ns: seq<Node>, sts: seq<Step>, i: nat)
    requires IsRun(raw, role, ns, sts) && i < |ns|
    ensures Inv(ns[i]) && MarksOk(ns[i])
    decreases i
  {
    hide Inv, MarksOk, Next, New, Enabled;
    if i == 0 {
      StartInv(raw, role);
    } else {
      RunInv(raw, role, ns, sts, i - 1);
      StepInv(ns[i - 1], sts[i - 1]);
      StepMarks(ns[i - 1], sts[i - 1]);
      assert ns[i] == Next(ns[i - 1], sts[i - 1]);
    }
  }

  /** Receive-memory cap: against any peer, the connection window, the credit still pending and the
      reported but unconsumed bytes always add up to the configured window, so the unconsumed bytes
      never exceed it; and the same for each live stream with its own window. */
  lemma ReceiveMemoryCap(raw: Config, role: Role, ns: seq<Node>, sts: seq<Step>, i: nat)
    requires IsRun(raw, role, ns, sts) && i < |ns|
    ensures var n := ns[i];
            && n.s.recvWin + n.s.recvPending + (TotalIn(Log(n)) - n.consumedTotal) == n.s.cfg.sessionWindow
            && TotalIn(Log(n)) - n.consumedTotal <= n.s.cfg.sessionWindow
            && forall sid :: sid in n.s.streams ==>
                 var st, unread := n.s.streams[sid], |Hear(Log(n), sid).data| - Consumed(n, sid);
                 st.recvWin + st.recvPending + unread == n.s.cfg.initWindow && unread <= n.s.cfg.initWindow
  {
    hide IsRun, WireOk, EncodeAll, Tr, Hear, TotalData, TotalIn, LastSyn;
    RunInv(raw, role, ns, sts, i);
    var n := ns[i];
    forall sid | sid in n.s.streams
      ensures n.s.streams[sid].recvWin + n.s.streams[sid].recvPending
              + (|Hear(Log(n), sid).data| - Consumed(n, sid)) == n.s.cfg.initWindow
      ensures n.s.streams[sid].recvWin >= 0 && n.s.streams[sid].recvPending >= 0
    {
      assert SidOk(n, sid);
    }
  }

  /** Wake-up invariant: in every non-dead state of every run the counter is the number of blocked
      streams, and a blocked stream has an exhausted stream or connection window. */
  lemma BlockedMeansExhausted(raw: Config, role: Role, ns: seq<Node>, sts: seq<Step>, i: nat, sid: Sid)
    requires IsRun(raw, role, ns, sts) && i < |ns| && !ns[i].s.dead
    ensures ns[i].s.blockedCount == |BlockedSet(ns[i].s.streams)|
    ensures sid in ns[i].s.streams && ns[i].s.streams[sid].blocked ==>
              ns[i].s.streams[sid].sendWin <= 0 || ns[i].s.sendWin <= 0
  {
    hide IsRun, WireOk, EncodeAll, Tr, Hear, TotalData, TotalIn, LastSyn;
    RunInv(raw, role, ns, sts, i);
    assert SidOk(ns[i], sid);
  }

  /** No wake-up is lost: the very step after which a blocked stream has room on both windows queues
      WRITABLE for it. */
  lemma WakeUpIsQueued(n: Node, st: Step, sid: Sid)
    requires Inv(n) && GoodConfig(n.s.cfg) && Enabled(n, st)
    requires var n' := Next(n, st);
             && !n'.s.dead && sid in n.s.streams && n.s.streams[sid].blocked
             && sid in n'.s.streams && n'.s.streams[sid].sendWin > 0 && n'.s.sendWin > 0
    ensures Log(n) <= Log(Next(n, st)) && Writable(sid) in Log(Next(n, st))[|Log(n)|..]
  {
    hide IdsOk, HelloOk, FlowOk, SidOk, WireOk, EncodeAll, Tr, Hear, Next, Wakes;
    var n' := Next(n, st);
    StepInv(n, st);
    RoomMeansNotBlocked(n', sid);
    StepWakes(n, st, sid);
  }

  lemma RoomMeansNotBlocked(n: Node, x: Sid)
    requires SidOk(n, x) && !n.s.dead && x in n.s.streams && n.s.streams[x].sendWin > 0 && n.s.sendWin > 0
    ensures !n.s.streams[x].blocked
  {
    hide Tr, Hear;
  }

  lemma WakesLog(n: Node, n': Node, sid: Sid)
    requires Wakes(n.s, n'.s) && n'.popped == n.popped
    requires sid in n.s.streams && n.s.streams[sid].blocked && sid in n'.s.streams && !n'.s.streams[sid].blocked
    ensures Log(n) <= Log(n') && Writable(sid) in Log(n')[|Log(n)|..]
  {
    assert n'.s.events == n.s.events + n'.s.events[|n.s.events|..];
    assert Log(n') == Log(n) + n'.s.events[|n.s.events|..];
  }

  lemma CallWakes(n: Node, c: Call, sid: Sid)
    requires Inv(n) && (c.CallOpen? ==> IdsLeft(n))
    requires var n' := Do(n, c);
             sid in n.s.streams && n.s.streams[sid].blocked && sid in n'.s.streams && !n'.s.streams[sid].blocked
    ensures Log(n) <= Log(Do(n, c)) && Writable(sid) in Log(Do(n, c))[|Log(n)|..]
  {
    hide Inv, Wakes, Log, OpenStream, WriteStream, CloseStream, ResetStream, SendCapacity, SendGoAway, OnTimer, Consume;
    var n' := Do(n, c);
    if c.CallConsume? {
      ConsumeWakes(n.s, c.sid, c.n);
      WakesLog(n, n', sid);
    } else if !c.CallPop? && !c.CallAdvance? {
      TidyCall(n, c);
      WakesLog(n, n', sid);
    }
  }

  lemma StepWakes(n: Node, st: Step, sid: Sid)
    requires Inv(n) && GoodConfig(n.s.cfg) && Enabled(n, st)
    requires var n' := Next(n, st);
             sid in n.s.streams && n.s.streams[sid].blocked && sid in n'.s.streams && !n'.s.streams[sid].blocked
    ensures Log(n) <= Log(Next(n, st)) && Writable(sid) in Log(Next(n, st))[|Log(n)|..]
  {
    hide Inv, Do, Process, Wakes, Log;
    var n' := Next(n, st);
    match st
    case HostCall(c) =>
      CallWakes(n, c, sid);
    case PeerFrame(f, order) =>
      TidyProcess(n.s, f, order);
      WakesLog(n, n', sid);
    case PeerGarbage =>
      TidyFatal(n.s, CODE_PROTOCOL);
      WakesLog(n, n', sid);
  }

  /** A short mux_write on a session that survives it leaves its stream blocked, owed a WRITABLE. */
  lemma ShortWriteBlocks(s: Session, sid: Sid, p: seq<Byte>)
    requires !WriteStream(s, sid, p).0.dead && 0 <= WriteStream(s, sid, p).1 < |p|
    ensures var s1 := WriteStream(s, sid, p).0;
            sid in s1.streams && s1.streams[sid].blocked && (s1.streams[sid].sendWin <= 0 || s1.sendWin <= 0)
  {
    hide SendAll;
    if !s.dead && sid in s.streams && !s.streams[sid].life.HalfLocal? {
      var room := Min(s.streams[sid].sendWin, s.sendWin);
      if room > 0 {
        SendAllPostHolds(s, sid, p[..Min(|p|, room)]);
      }
    }
  }
}
