/** What the layers above a session rely on: ids do not come back, openings are reported once and first,
    and a stream with bytes waiting in a host buffer is owed a WRITABLE. */
module HostWake {
  import opened Wire
  import opened Codec
  import opened Session
  import opened Trace
  import opened Node
  import opened NodeSend
  import opened NodeConsume
  import opened NodeRuns

  /** An ordinary step: no stream appears, none is reported opened and none but a live one reset. */
  ghost predicate Plain(s: Session, s': Session) {
    && s'.streams.Keys <= s.streams.Keys && s'.maxRemote == s.maxRemote && s'.role == s.role
    && s.events <= s'.events && (forall k :: |s.events| <= k < |s'.events| ==> !s'.events[k].StreamOpened?)
    && (forall k :: |s.events| <= k < |s'.events| && s'.events[k].StreamReset? ==> s'.events[k].sid in s.streams)
    && (s.dead ==> s'.dead)
  }

  lemma PlainTrans(a: Session, b: Session, c: Session)
    requires Plain(a, b) && Plain(b, c)
    ensures Plain(a, c)
  {
    forall k | |a.events| <= k < |c.events|
      ensures !c.events[k].StreamOpened? && (c.events[k].StreamReset? ==> c.events[k].sid in a.streams)
    {
      if k < |b.events| {
        assert c.events[k] == b.events[k];
      }
    }
  }

  lemma PlainRefl(s: Session)
    ensures Plain(s, s)
  {
  }

  lemma PlainFatal(s: Session, code: U32)
    ensures Plain(s, RaiseFatal(s, code))
  {
  }

  lemma PlainEmit(s: Session, f: Frame)
    ensures Plain(s, Emit(s, f).0) && Emit(s, f).0.streams == s.streams
  {
    hide Encode, GrowTo;
  }

  lemma PlainQueue(s: Session, e: Event)
    requires !e.StreamOpened? && (e.StreamReset? ==> e.sid in s.streams)
    ensures Plain(s, Queue(s, e))
  {
  }

  lemma PlainRemove(s: Session, sid: Sid)
    requires sid in s.streams
    ensures Plain(s, Remove(s, sid))
  {
  }

  /** A change of records, windows and timers only. */
  lemma PlainRecord(s: Session, s': Session)
    requires s'.streams.Keys == s.streams.Keys && s'.maxRemote == s.maxRemote && s'.role == s.role
    requires s'.events == s.events && s'.dead == s.dead
    ensures Plain(s, s')
  {
  }

  lemma PlainAbort(s: Session, sid: Sid, code: U32)
    requires sid in s.streams
    ensures Plain(s, AbortStream(s, sid, code))
  {
    hide Plain, Emit, Remove;
    var s1 := Emit(s, RstFrame(sid, code)).0;
    var s2 := Queue(s1, StreamReset(sid, CODE_NO_ERROR));
    PlainEmit(s, RstFrame(sid, code));
    PlainQueue(s1, StreamReset(sid, CODE_NO_ERROR));
    PlainRemove(s2, sid);
    PlainTrans(s, s1, s2);
    PlainTrans(s, s2, Remove(s2, sid));
  }

  lemma PlainTake(s: Session, f: Frame)
    requires f.sid in s.streams
    ensures Plain(s, TakeData(s, f)) && f.sid in TakeData(s, f).streams
  {
  }

  lemma PlainFin(s: Session, sid: Sid)
    requires sid in s.streams
    ensures Plain(s, TakeFin(s, sid))
  {
  }

  lemma PlainStreamData(s: Session, f: Frame)
    ensures Plain(s, OnStreamData(s, f))
  {
    hide Plain, AbortStream, TakeData, TakeFin, Remove;
    PlainRefl(s);
    PlainFatal(s, CODE_PROTOCOL);
    PlainFatal(s, CODE_FLOW_CONTROL);
    if f.sid in s.streams && f.sid != SID_CONTROL {
      PlainAbort(s, f.sid, CODE_PROTOCOL);
      PlainAbort(s, f.sid, CODE_FLOW_CONTROL);
      var e := StreamReset(f.sid, if |f.payload| >= 4 then Get32(f.payload, 0) else CODE_NO_ERROR);
      PlainQueue(s, e);
      PlainRemove(Queue(s, e), f.sid);
      PlainTrans(s, Queue(s, e), Remove(Queue(s, e), f.sid));
      PlainTake(s, f);
      PlainFin(s, f.sid);
      PlainFin(TakeData(s, f), f.sid);
      PlainTrans(s, TakeData(s, f), TakeFin(TakeData(s, f), f.sid));
    }
  }

  lemma PlainWake(s: Session, sid: Sid)
    ensures Plain(s, Wake(s, sid))
  {
  }

  lemma {:induction false} PlainSweep(s: Session, order: seq<Sid>)
    ensures Plain(s, Sweep(s, order))
    decreases |order|
  {
    hide Plain, Wake;
    if order == [] {
      PlainRefl(s);
    } else {
      PlainWake(s, order[0]);
      PlainSweep(Wake(s, order[0]), order[1..]);
      PlainTrans(s, Wake(s, order[0]), Sweep(Wake(s, order[0]), order[1..]));
    }
  }

  lemma PlainWindowUpdate(s: Session, f: Frame, order: seq<Sid>)
    ensures Plain(s, OnWindowUpdate(s, f, order))
  {
    hide Plain, Sweep, Wake, Get32;
    PlainRefl(s);
    PlainFatal(s, CODE_PROTOCOL);
    if |f.payload| == 4 {
      var c := Get32(f.payload, 0);
      if f.sid == SID_CONTROL {
        var s1 := s.(sendWin := s.sendWin + c);
        PlainRecord(s, s1);
        PlainThen(s, s1, order, CODE_FLOW_CONTROL);
      } else if f.sid in s.streams {
        var st := s.streams[f.sid];
        var s1 := s.(streams := s.streams[f.sid := st.(sendWin := st.sendWin + c)]);
        PlainRecord(s, s1);
        PlainWake(s1, f.sid);
        PlainTrans(s, s1, Wake(s1, f.sid));
        PlainThen(s, s1, order, CODE_FLOW_CONTROL);
      }
    }
  }

  lemma PlainThen(s: Session, s1: Session, order: seq<Sid>, code: U32)
    requires Plain(s, s1)
    ensures Plain(s, Sweep(s1, order)) && Plain(s, RaiseFatal(s1, code))
  {
    hide Plain, Sweep;
    PlainSweep(s1, order);
    PlainTrans(s, s1, Sweep(s1, order));
    PlainFatal(s1, code);
    PlainTrans(s, s1, RaiseFatal(s1, code));
  }

  lemma PlainHello(s: Session, f: Frame, ack: bool)
    requires GoodConfig(s.cfg)
    ensures Plain(s, OnHello(s, f, ack))
  {
    hide Plain, ReadTlvs, HelloPayload, Emit;
    PlainFatal(s, CODE_PROTOCOL);
    var (p, ok) := ReadTlvs(Params(s.peerMax, s.peerInit, s.sendWin, NO_INFO), f.payload, 0);
    var s1 := s.(peerMax := p.peerMax, peerInit := p.peerInit, sendWin := p.sendWin);
    PlainRecord(s, s1);
    PlainThen(s, s1, [], CODE_PROTOCOL);
    var s2 := Queue(s1.(helloSeen := true), PeerHello(p.info));
    PlainRecord(s, s1.(helloSeen := true));
    PlainQueue(s1.(helloSeen := true), PeerHello(p.info));
    PlainTrans(s, s1.(helloSeen := true), s2);
    var s3 := SendHello(s2, true);
    PlainGreeting(s2);
    PlainTrans(s, s2, s3);
  }

  lemma PlainGreeting(s: Session)
    requires GoodConfig(s.cfg)
    ensures Plain(s, SendHello(s, true))
  {
    hide Plain, HelloPayload, Emit;
    var (s1, ok) := Emit(s, HelloFrame(s, true));
    PlainEmit(s, HelloFrame(s, true));
    PlainRecord(s1, s1.(helloSent := true));
    PlainTrans(s, s1, s1.(helloSent := true));
  }

  lemma PlainControl(s: Session, f: Frame)
    ensures Plain(s, OnPing(s, f)) && Plain(s, OnGoAway(s, f)) && Plain(s, OnCapacity(s, f))
  {
    hide Emit, Get32;
    PlainFatal(s, CODE_PROTOCOL);
    if |f.payload| == 8 {
      PlainEmit(s, Frame(T_PING, F_ACK, SID_CONTROL, f.payload));
    }
  }

  lemma PlainProcess(s: Session, f: Frame, order: seq<Sid>)
    requires GoodConfig(s.cfg) && !IsSyn(f)
    ensures Plain(s, Process(s, f, order))
  {
    hide Plain, OnSyn, OnStreamData, OnWindowUpdate, OnPing, OnGoAway, OnCapacity, OnHello;
    PlainFatal(s, CODE_PROTOCOL);
    PlainStreamData(s, f);
    PlainWindowUpdate(s, f, order);
    PlainControl(s, f);
    PlainHello(s, f, false);
    PlainHello(s, f, true);
  }

  /** A SYN brings in at most its own id, which is a new peer id, and reports it first. No reset is reported
      but of that stream or a live one. */
  ghost predicate Admits(s: Session, sid: Sid, s': Session) {
    && s'.streams.Keys <= s.streams.Keys + {sid} && s'.role == s.role && (s.dead ==> s'.dead)
    && s.events <= s'.events && s.maxRemote <= s'.maxRemote
    && (sid in s'.streams && sid !in s.streams ==> !Own(s.role, sid) && s.maxRemote < sid <= s'.maxRemote)
    && (forall k :: |s.events| <= k < |s'.events| && s'.events[k].StreamOpened? ==>
          k == |s.events| && s'.events[k].sid == sid && !Own(s.role, sid) && s.maxRemote < sid <= s'.maxRemote)
    && (forall k :: |s.events| <= k < |s'.events| && s'.events[k].StreamReset? ==>
          s'.events[k].sid in s.streams || s'.events[k].sid <= s'.maxRemote)
  }

  lemma SynAdmits(s: Session, f: Frame)
    ensures Admits(s, f.sid, OnSyn(s, f))
  {
    hide Plain, Admits, Emit, Admit, Remove, Queue, Refuses, HasRst, HasFin;
    PlainFatal(s, CODE_PROTOCOL);
    PlainAdmits(s, f.sid, RaiseFatal(s, CODE_PROTOCOL));
    if !SynIllegal(s, f) {
      PlainEmit(s, RstFrame(f.sid, CODE_REFUSED));
      var s0 := Emit(s, RstFrame(f.sid, CODE_REFUSED)).0;
      PlainAdmits(s, f.sid, s0);
      HigherAdmits(s, f.sid, s0);
      var s1 := Admit(s, f);
      AdmitAdmits(s, f);
      var e := StreamReset(f.sid, CODE_NO_ERROR);
      PlainQueue(s1, e);
      PlainRemove(Queue(s1, e), f.sid);
      PlainTrans(s1, Queue(s1, e), Remove(Queue(s1, e), f.sid));
      ThenPlain(s, f.sid, s1, Remove(Queue(s1, e), f.sid));
      var s2 := s1.(streams := s1.streams[f.sid := s1.streams[f.sid].(life := HalfRemote)]);
      PlainRecord(s1, s2);
      PlainQueue(s2, StreamClosed(f.sid));
      PlainTrans(s1, s2, Queue(s2, StreamClosed(f.sid)));
      ThenPlain(s, f.sid, s1, Queue(s2, StreamClosed(f.sid)));
    }
  }

  lemma PlainAdmits(s: Session, sid: Sid, s': Session)
    requires Plain(s, s')
    ensures Admits(s, sid, s')
  {
  }

  lemma HigherAdmits(s: Session, sid: Sid, s': Session)
    requires Plain(s, s') && sid > s.maxRemote
    ensures Admits(s, sid, s'.(maxRemote := sid))
  {
  }

  lemma AdmitAdmits(s: Session, f: Frame)
    requires !SynIllegal(s, f)
    ensures Admits(s, f.sid, Admit(s, f)) && f.sid in Admit(s, f).streams
            && f.sid in Queue(Admit(s, f), StreamReset(f.sid, CODE_NO_ERROR)).streams
  {
  }

  lemma ThenPlain(s: Session, sid: Sid, s1: Session, s2: Session)
    requires Admits(s, sid, s1) && Plain(s1, s2)
    ensures Admits(s, sid, s2)
  {
    forall k | |s.events| <= k < |s2.events| && s2.events[k].StreamOpened?
      ensures k == |s.events| && s2.events[k].sid == sid && !Own(s.role, sid) && s.maxRemote < sid <= s2.maxRemote
    {
      if k < |s1.events| {
        assert s2.events[k] == s1.events[k];
      }
    }
    forall k | |s.events| <= k < |s2.events| && s2.events[k].StreamReset?
      ensures s2.events[k].sid in s.streams || s2.events[k].sid <= s2.maxRemote
    {
      if k < |s1.events| {
        assert s2.events[k] == s1.events[k];
      }
    }
  }

  // ---------------------------------------------------------------- host calls

  lemma {:induction false} PlainSendAll(s: Session, sid: Sid, p: seq<Byte>)
    requires sid in s.streams
    ensures Plain(s, SendAll(s, sid, p).0)
    decreases |p|
  {
    hide Plain, Emit;
    PlainRefl(s);
    if |p| > 0 {
      var n := Min(|p|, MAX_DATA_FRAME);
      var (s1, ok) := SendChunk(s, sid, p[..n]);
      PlainChunk(s, sid, p[..n]);
      if ok {
        PlainSendAll(s1, sid, p[n..]);
        PlainTrans(s, s1, SendAll(s1, sid, p[n..]).0);
      }
    }
  }

  lemma PlainChunk(s: Session, sid: Sid, p: seq<Byte>)
    requires sid in s.streams && |p| <= MAX_DATA_FRAME
    ensures Plain(s, SendChunk(s, sid, p).0) && sid in SendChunk(s, sid, p).0.streams
  {
    hide Plain, Emit;
    PlainEmit(s, DataFrame(sid, p));
    var s1 := Emit(s, DataFrame(sid, p)).0;
    var s2 := SendChunk(s, sid, p).0;
    if s2 != s1 {
      PlainRecord(s1, s2);
      PlainTrans(s, s1, s2);
    }
  }

  lemma PlainBlocked(s: Session, sid: Sid)
    requires sid in s.streams
    ensures Plain(s, SetBlocked(s, sid, true))
  {
  }

  lemma PlainWrite(s: Session, sid: Sid, p: seq<Byte>)
    ensures Plain(s, WriteStream(s, sid, p).0)
  {
    hide Plain, SendAll, SetBlocked;
    PlainRefl(s);
    if !s.dead && sid in s.streams && !s.streams[sid].life.HalfLocal? {
      PlainBlocked(s, sid);
      var room := Min(s.streams[sid].sendWin, s.sendWin);
      if room > 0 {
        var q := p[..Min(|p|, room)];
        PlainSendAll(s, sid, q);
        var s1 := SendAll(s, sid, q).0;
        if sid in s1.streams {
          PlainBlocked(s1, sid);
          PlainTrans(s, s1, SetBlocked(s1, sid, true));
        }
      }
    }
  }

  lemma PlainClose(s: Session, sid: Sid)
    ensures Plain(s, CloseStream(s, sid).0)
  {
    hide Plain, Emit, Remove;
    PlainRefl(s);
    PlainEmit(s, FinFrame(sid));
    var s1 := Emit(s, FinFrame(sid)).0;
    if sid in s.streams {
      PlainRemove(s1, sid);
      PlainTrans(s, s1, Remove(s1, sid));
      var s2 := s1.(streams := s1.streams[sid := s.streams[sid].(life := HalfLocal)]);
      PlainRecord(s1, s2);
      PlainTrans(s, s1, s2);
    }
  }

  lemma PlainReset(s: Session, sid: Sid, code: U32)
    ensures Plain(s, ResetStream(s, sid, code).0)
  {
    hide Plain, Emit, Remove;
    PlainRefl(s);
    if sid in s.streams {
      PlainEmit(s, RstFrame(sid, code));
      var s1 := Emit(s, RstFrame(sid, code)).0;
      PlainRemove(s1, sid);
      PlainTrans(s, s1, Remove(s1, sid));
    }
  }

  lemma {:induction false} PlainSessionCredit(s: Session)
    ensures Plain(s, EmitSessionCredit(s)) && EmitSessionCredit(s).streams == s.streams
    decreases s.recvPending
  {
    hide Plain, Emit;
    PlainRefl(s);
    if s.recvPending > 0 {
      var c := CreditChunk(s.recvPending);
      PlainEmit(s, CreditFrame(SID_CONTROL, c));
      var (s1, ok) := Emit(s, CreditFrame(SID_CONTROL, c));
      if ok {
        EmitKeeps(s, CreditFrame(SID_CONTROL, c));
        var s2 := s1.(recvWin := s1.recvWin + c, recvPending := s1.recvPending - c);
        PlainRecord(s1, s2);
        PlainTrans(s, s1, s2);
        PlainSessionCredit(s2);
        PlainTrans(s, s2, EmitSessionCredit(s2));
      }
    }
  }

  lemma {:induction false} PlainStreamCredit(s: Session, sid: Sid)
    requires sid in s.streams
    ensures Plain(s, EmitStreamCredit(s, sid))
    decreases s.streams[sid].recvPending
  {
    hide Plain, Emit;
    PlainRefl(s);
    var st := s.streams[sid];
    if st.recvPending > 0 {
      var c := CreditChunk(st.recvPending);
      PlainEmit(s, CreditFrame(sid, c));
      var (s1, ok) := Emit(s, CreditFrame(sid, c));
      if ok {
        var s2 := s1.(streams := s1.streams[sid := st.(recvWin := st.recvWin + c, recvPending := st.recvPending - c)]);
        PlainRecord(s1, s2);
        PlainTrans(s, s1, s2);
        PlainStreamCredit(s2, sid);
        PlainTrans(s, s2, EmitStreamCredit(s2, sid));
      }
    }
  }

  lemma PlainConsume(s: Session, sid: Sid, k: nat)
    ensures Plain(s, Consume(s, sid, k).0)
  {
    hide Plain, EmitSessionCredit, EmitStreamCredit;
    PlainRefl(s);
    var s1 := AddPending(s, k);
    PlainRecord(s, s1);
    PlainSessionCredit(s1);
    var s2 := CreditSession(s1);
    PlainTrans(s, s1, EmitSessionCredit(s1));
    if sid in s2.streams {
      var s3 := AddStreamPending(s2, sid, k);
      PlainRecord(s2, s3);
      PlainTrans(s, s2, s3);
      PlainStreamCredit(s3, sid);
      PlainTrans(s, s3, EmitStreamCredit(s3, sid));
    }
  }

  lemma PlainOthers(s: Session, w: U32, reason: U32, now: nat)
    ensures Plain(s, SendCapacity(s, w).0) && Plain(s, SendGoAway(s, reason).0) && Plain(s, OnTimer(s, now).0)
  {
    hide Emit;
    PlainEmit(s, Frame(T_CAPACITY, 0, SID_CONTROL, Put32(w)));
    PlainEmit(s.(localGoaway := true), Frame(T_GOAWAY, 0, SID_CONTROL, Put32(reason) + Put32(s.maxRemote)));
    PlainEmit(s, PingFrame(s.timer.nonce));
    PlainFatal(s, CODE_INTERNAL);
  }

  /** Opening a stream brings in the next own id and nothing else. */
  lemma OpenAdds(s: Session, meta: seq<Byte>)
    ensures var s1 := OpenStream(s, meta).0;
            && s1.streams.Keys <= s.streams.Keys + {s.nextSid} && s1.role == s.role && s1.maxRemote == s.maxRemote
            && s.events <= s1.events
            && (forall k :: |s.events| <= k < |s1.events| ==> !s1.events[k].StreamOpened? && !s1.events[k].StreamReset?)
            && (s.dead ==> s1.dead)
            && (s1.streams.Keys <= s.streams.Keys || s.nextSid != SID_CONTROL)
  {
    hide Encode, GrowTo;
  }

  // ---------------------------------------------------------------- steps of a run

  /** Neither a SYN, nor an open, nor taking an event. */
  predicate Ordinary(st: Step) {
    match st
    case HostCall(c) => !c.CallOpen? && !c.CallPop?
    case PeerFrame(f, _) => !IsSyn(f)
    case PeerGarbage => true
  }

  lemma OrdinaryPlain(n: Node, st: Step)
    requires GoodConfig(n.s.cfg) && Ordinary(st)
    ensures Plain(n.s, Next(n, st).s)
  {
    hide Plain, Process, WriteStream, CloseStream, ResetStream, Consume, SendCapacity, SendGoAway, OnTimer, OpenStream,
        PopEvent;
    match st
    case HostCall(c) => CallPlain(n, c);
    case PeerFrame(f, order) =>
      PlainRefl(n.s);
      PlainProcess(n.s, f, order);
    case PeerGarbage => PlainFatal(n.s, CODE_PROTOCOL);
  }

  lemma CallPlain(n: Node, c: Call)
    requires !c.CallOpen? && !c.CallPop?
    ensures Plain(n.s, Do(n, c).s)
  {
    hide Plain, WriteStream, CloseStream, ResetStream, Consume, SendCapacity, SendGoAway, OnTimer, OpenStream, PopEvent;
    match c
    case CallWrite(sid, p) => PlainWrite(n.s, sid, p);
    case CallClose(sid) => PlainClose(n.s, sid);
    case CallReset(sid, code) => PlainReset(n.s, sid, code);
    case CallConsume(sid, k) => PlainConsume(n.s, sid, k);
    case CallCapacity(w) => PlainOthers(n.s, w, 0, 0);
    case CallGoAway(r) => PlainOthers(n.s, 0, r, 0);
    case CallTimer(now) => PlainOthers(n.s, 0, 0, now);
    case CallAdvance(k) => PlainRecord(n.s, Do(n, c).s);
  }

  /** Ids do not come back: an id that was used and is gone stays gone. */
  lemma NoRevival(n: Node, st: Step, x: Sid)
    requires Inv(n) && GoodConfig(n.s.cfg) && Enabled(n, st) && Used(n, x)
    ensures Used(Next(n, st), x)
    ensures x in Next(n, st).s.streams ==> x in n.s.streams
    ensures n.s.dead ==> Next(n, st).s.dead
  {
    hide Inv, Next, Used;
    if Ordinary(st) {
      OrdinaryPlain(n, st);
      SameOpens(n, st);
      PlainUsed(n, Next(n, st), x);
    } else if st.PeerFrame? {
      NextIsReceive(n, st.f, st.order);
      SynProcess(n, st.f, st.order);
      AdmitsUsed(n, Next(n, st), st.f.sid, x);
    } else {
      OtherUsed(n, st.c, x);
    }
  }

  lemma NextIsReceive(n: Node, f: Frame, order: seq<Sid>)
    requires GoodConfig(n.s.cfg)
    ensures Next(n, PeerFrame(f, order)) == Receive(n, f, order)
  {
    hide Receive, Do;
  }

  lemma PlainUsed(n: Node, n': Node, x: Sid)
    requires Plain(n.s, n'.s) && n'.opens == n.opens && Used(n, x)
    ensures Used(n', x) && (x in n'.s.streams ==> x in n.s.streams) && (n.s.dead ==> n'.s.dead)
  {
    hide OddSid;
  }

  lemma AdmitsUsed(n: Node, n': Node, sid: Sid, x: Sid)
    requires Admits(n.s, sid, n'.s) && n'.opens == n.opens && Used(n, x)
    ensures Used(n', x) && (x in n'.s.streams ==> x in n.s.streams) && (n.s.dead ==> n'.s.dead)
  {
    hide OddSid;
  }

  lemma OtherUsed(n: Node, c: Call, x: Sid)
    requires Inv(n) && GoodConfig(n.s.cfg) && (c.CallPop? || (c.CallOpen? && IdsLeft(n))) && Used(n, x)
    ensures var n' := Next(n, HostCall(c));
            Used(n', x) && (x in n'.s.streams ==> x in n.s.streams) && (n.s.dead ==> n'.s.dead)
  {
    hide Inv, OpenStream, DoWrite, DoClose, DoReset, DoConsume, DoCapacity, DoGoAway, DoTimer, DoAdvance, Receive,
        OddSid;
    if c.CallOpen? {
      OpenAdds(n.s, c.meta);
      OpenFresh(n, c.meta);
    }
  }

  lemma SameOpens(n: Node, st: Step)
    requires GoodConfig(n.s.cfg) && Ordinary(st)
    ensures Next(n, st).opens == n.opens
  {
    hide Process, OpenStream, WriteStream, CloseStream, ResetStream, Consume, SendCapacity, SendGoAway, OnTimer,
        PopEvent;
  }

  lemma SynProcess(n: Node, f: Frame, order: seq<Sid>)
    requires GoodConfig(n.s.cfg) && IsSyn(f)
    ensures Admits(n.s, f.sid, Receive(n, f, order).s) && Receive(n, f, order).opens == n.opens
  {
    hide Plain, Admits, OnSyn, OnStreamData, OnWindowUpdate, OnPing, OnGoAway, OnCapacity, OnHello;
    PlainFatal(n.s, CODE_PROTOCOL);
    PlainAdmits(n.s, f.sid, RaiseFatal(n.s, CODE_PROTOCOL));
    PlainRefl(n.s);
    PlainAdmits(n.s, f.sid, n.s);
    SynAdmits(n.s, f);
  }

  lemma OpenFresh(n: Node, meta: seq<Byte>)
    requires Inv(n) && IdsLeft(n)
    ensures n.s.nextSid != SID_CONTROL ==> !Used(n, n.s.nextSid)
    ensures DoOpen(n, meta).opens >= n.opens
  {
    hide OpenStream, WireOk, EncodeAll, SidOk, HelloOk, FlowOk, LastSyn;
    if n.s.nextSid != SID_CONTROL {
      NextSid(n);
    }
  }

  // ---------------------------------------------------------------- no wake-up is lost

  /** The stream can still be written to. */
  predicate OpenFor(s: Session, sid: Sid) { !s.dead && sid in s.streams && !s.streams[sid].life.HalfLocal? }

  /** A stream that can be written to is blocked, or its WRITABLE is queued. */
  predicate Waiting(s: Session, sid: Sid) {
    OpenFor(s, sid) ==> s.streams[sid].blocked || Writable(sid) in s.events
  }

  lemma StepLonger(n: Node, st: Step)
    requires Inv(n) && GoodConfig(n.s.cfg) && Enabled(n, st)
    ensures n.s.wire <= Next(n, st).s.wire
    ensures st != HostCall(CallPop) ==> n.s.events <= Next(n, st).s.events && Next(n, st).popped == n.popped
  {
    hide Inv, Process, OpenStream, WriteStream, CloseStream, ResetStream, SendCapacity, SendGoAway, OnTimer, Consume;
    match st
    case HostCall(c) => CallLonger(n, c);
    case PeerFrame(f, order) => TidyProcess(n.s, f, order);
    case PeerGarbage =>
  }

  lemma CallLonger(n: Node, c: Call)
    requires Inv(n) && (c.CallOpen? ==> IdsLeft(n))
    ensures n.s.wire <= Do(n, c).s.wire
    ensures !c.CallPop? ==> n.s.events <= Do(n, c).s.events && Do(n, c).popped == n.popped
  {
    hide Inv, OpenStream, WriteStream, CloseStream, ResetStream, SendCapacity, SendGoAway, OnTimer, Consume;
    if c.CallConsume? {
      ConsumeWakes(n.s, c.sid, c.n);
    } else if !c.CallPop? && !c.CallAdvance? {
      TidyCall(n, c);
    }
  }

  /** Once the FIN is out it stays out. */
  lemma HalfLocalStays(n: Node, n': Node, x: Sid)
    requires SidOk(n, x) && SidOk(n', x) && n.s.wire <= n'.s.wire
    requires x in n.s.streams && x in n'.s.streams && n.s.streams[x].life.HalfLocal?
    ensures n'.s.streams[x].life.HalfLocal?
  {
    hide Tr, Hear, Used;
    TrPrefix(n.s.wire, n'.s.wire, x);
  }

  /** Every step keeps a waiting stream waiting, save the one that hands its WRITABLE to the host. */
  lemma WaitingStep(n: Node, st: Step, x: Sid)
    requires Inv(n) && GoodConfig(n.s.cfg) && Enabled(n, st) && Used(n, x) && Waiting(n.s, x)
    requires st == HostCall(CallPop) ==> n.s.events == [] || n.s.events[0] != Writable(x)
    ensures Waiting(Next(n, st).s, x)
  {
    hide SessOk, WireOk, EncodeAll, SidOk, Next, Used;
    var n' := Next(n, st);
    StepInv(n, st);
    NoRevival(n, st, x);
    StepLonger(n, st);
    if OpenFor(n'.s, x) {
      if n.s.streams[x].life.HalfLocal? {
        HalfLocalStays(n, n', x);
      } else if st == HostCall(CallPop) {
        PopKeeps(n, x);
      } else if !(Writable(x) in n.s.events) && !n'.s.streams[x].blocked {
        StepWakes(n, st, x);
        assert Log(n') == Log(n) + n'.s.events[|n.s.events|..];
      }
    }
  }

  lemma PopKeeps(n: Node, x: Sid)
    requires Waiting(n.s, x) && (n.s.events == [] || n.s.events[0] != Writable(x)) && GoodConfig(n.s.cfg)
    ensures Waiting(Next(n, HostCall(CallPop)).s, x)
  {
    hide DoOpen, DoWrite, DoClose, DoReset, DoConsume, DoCapacity, DoGoAway, DoTimer, DoAdvance, Receive;
  }

  // ---------------------------------------------------------------- openings

  /** Openings are reported in ascending order, each before anything else about its stream. */
  ghost predicate LogOpens(role: Role, log: seq<Event>, hi: Sid) {
    && (forall i :: 0 <= i < |log| && log[i].StreamOpened? ==>
          !Own(role, log[i].sid) && log[i].sid <= hi && Hear(log[..i], log[i].sid) == Heard([], false))
    && (forall i, j :: 0 <= i < j < |log| && log[i].StreamOpened? && log[j].StreamOpened? ==> log[i].sid < log[j].sid)
  }

  /** Resets are reported of streams known by then, and none before its opening. */
  ghost predicate LogResets(role: Role, log: seq<Event>, hi: Sid) {
    && (forall i :: 0 <= i < |log| && log[i].StreamReset? ==> Own(role, log[i].sid) || log[i].sid <= hi)
    && (forall i, j :: 0 <= i < j < |log| && log[i].StreamReset? && log[j].StreamOpened? ==> log[i].sid != log[j].sid)
  }

  ghost predicate OpensOk(n: Node) {
    LogOpens(n.s.role, Log(n), n.s.maxRemote) && LogResets(n.s.role, Log(n), n.s.maxRemote)
  }

  lemma LogResetsMore(role: Role, log: seq<Event>, hi: Sid, es: seq<Event>, hi': Sid)
    requires LogResets(role, log, hi) && hi <= hi'
    requires forall k :: 0 <= k < |es| && es[k].StreamOpened? ==> k == 0 && !Own(role, es[k].sid) && hi < es[k].sid
    requires forall k :: 0 <= k < |es| && es[k].StreamReset? ==> Own(role, es[k].sid) || es[k].sid <= hi'
    ensures LogResets(role, log + es, hi')
  {
    hide OddSid;
    var l := log + es;
    forall i | 0 <= i < |l| && l[i].StreamReset? ensures Own(role, l[i].sid) || l[i].sid <= hi' {
      assert if i < |log| then l[i] == log[i] else l[i] == es[i - |log|];
    }
    forall i, j | 0 <= i < j < |l| && l[i].StreamReset? && l[j].StreamOpened? ensures l[i].sid != l[j].sid {
      assert i < |log| ==> l[i] == log[i];
      assert if j < |log| then l[j] == log[j] else l[j] == es[j - |log|];
    }
  }

  lemma LogOpensMore(role: Role, log: seq<Event>, hi: Sid, es: seq<Event>, hi': Sid)
    requires LogOpens(role, log, hi) && hi <= hi'
    requires forall k :: 0 <= k < |es| && es[k].StreamOpened? ==>
               k == 0 && !Own(role, es[k].sid) && hi < es[k].sid <= hi' && Hear(log, es[k].sid) == Heard([], false)
    ensures LogOpens(role, log + es, hi')
  {
    hide Hear, OddSid;
    var l := log + es;
    forall i | 0 <= i < |l| && l[i].StreamOpened?
      ensures !Own(role, l[i].sid) && l[i].sid <= hi' && Hear(l[..i], l[i].sid) == Heard([], false)
    {
      if i < |log| {
        assert l[i] == log[i] && l[..i] == log[..i];
      } else {
        assert l[i] == es[i - |log|] && l[..i] == log;
      }
    }
    forall i, j | 0 <= i < j < |l| && l[i].StreamOpened? && l[j].StreamOpened? ensures l[i].sid < l[j].sid {
      if j < |log| {
        assert l[i] == log[i] && l[j] == log[j];
      } else {
        assert l[j] == es[j - |log|];
        assert i < |log| ==> l[i] == log[i];
      }
    }
  }

  lemma StepOpens(n: Node, st: Step)
    requires Inv(n) && OpensOk(n) && GoodConfig(n.s.cfg) && Enabled(n, st)
    ensures OpensOk(Next(n, st))
  {
    hide Inv, LogOpens, LogResets, Process, DoOpen, DoWrite, DoClose, DoReset, DoConsume, DoCapacity, DoGoAway, DoTimer,
      DoAdvance, Hear, OddSid;
    var n' := Next(n, st);
    StepLonger(n, st);
    if st == HostCall(CallPop) {
      assert Log(n') == Log(n);
    } else {
      var es := n'.s.events[|n.s.events|..];
      assert Log(n') == Log(n) + es;
      assert forall k :: 0 <= k < |es| ==> es[k] == n'.s.events[|n.s.events| + k];
      KnownLive(n);
      if Ordinary(st) {
        OrdinaryPlain(n, st);
      } else if st.PeerFrame? {
        SynProcess(n, st.f, st.order);
        NothingHeard(n, st.f.sid);
      } else {
        OpenReports(n, st.c.meta);
      }
      LogOpensMore(n.s.role, Log(n), n.s.maxRemote, es, n'.s.maxRemote);
      LogResetsMore(n.s.role, Log(n), n.s.maxRemote, es, n'.s.maxRemote);
    }
  }

  lemma KnownLive(n: Node)
    requires Inv(n)
    ensures forall sid :: sid in n.s.streams ==> Own(n.s.role, sid) || sid <= n.s.maxRemote
  {
    hide SessOk, WireOk, EncodeAll, LiveOk, Tr, Hear, OddSid;
    forall sid | sid in n.s.streams ensures Own(n.s.role, sid) || sid <= n.s.maxRemote {
      assert SidOk(n, sid);
    }
  }

  lemma NothingHeard(n: Node, sid: Sid)
    requires Inv(n)
    ensures !Own(n.s.role, sid) && n.s.maxRemote < sid ==> Hear(Log(n), sid) == Heard([], false)
  {
    hide SessOk, WireOk, EncodeAll, Tr, Hear, LiveOk;
    assert SidOk(n, sid);
  }

  lemma OpenReports(n: Node, meta: seq<Byte>)
    ensures var s1 := DoOpen(n, meta).s;
            && s1.role == n.s.role && s1.maxRemote == n.s.maxRemote && n.s.events <= s1.events
            && forall k :: |n.s.events| <= k < |s1.events| ==> !s1.events[k].StreamOpened? && !s1.events[k].StreamReset?
  {
    hide OpenStream;
    OpenAdds(n.s, meta);
  }

  /** At the moment an opening is taken, it is new: no earlier event was about that stream. */
  lemma OpeningIsNew(n: Node)
    requires OpensOk(n) && n.s.events != [] && n.s.events[0].StreamOpened?
    ensures var sid := n.s.events[0].sid;
            && !Own(n.s.role, sid) && sid <= n.s.maxRemote
            && Hear(n.popped, sid) == Heard([], false)
            && (forall i :: 0 <= i < |n.popped| && n.popped[i].StreamOpened? ==> n.popped[i].sid != sid)
            && (forall code :: StreamReset(sid, code) !in n.popped)
  {
    hide Hear, OddSid;
    var k := |n.popped|;
    assert Log(n)[k] == n.s.events[0] && Log(n)[..k] == n.popped;
    forall i | 0 <= i < k && n.popped[i].StreamReset? ensures n.popped[i].sid != n.s.events[0].sid {
      assert Log(n)[i] == n.popped[i];
    }
    forall i | 0 <= i < k && n.popped[i].StreamOpened? ensures n.popped[i].sid != n.s.events[0].sid {
      assert Log(n)[i] == n.popped[i];
    }
  }
}
