/** Which frames a step of a session can put on the wire. */
module Emitting {
  import opened Wire
  import opened Codec
  import opened Session
  import opened Node
  import opened NodeReceive
  import opened NodeRuns

  datatype Kind = Finish | Opening | Abort | Bytes | Credit | Ping | Answer | Leave | Weight | Greeting | Mixed
      | Unknown

  function KindOf(f: Frame): Kind {
    if f.typ == T_DATA then
      if HasSyn(f.flags) then if HasFin(f.flags) || HasRst(f.flags) then Mixed else Opening
      else if HasRst(f.flags) then Abort else if HasFin(f.flags) then Finish else Bytes
    else if f.typ == T_WINDOW_UPDATE then Credit
    else if f.typ == T_PING then if HasAck(f.flags) then Answer else Ping
    else if f.typ == T_GOAWAY then Leave
    else if f.typ == T_CAPACITY then Weight
    else if f.typ == T_HELLO || f.typ == T_HELLO_ACK then Greeting
    else Unknown
  }

  /** The frames emitted are all of these kinds. */
  ghost predicate Emits(s: Session, s': Session, ks: set<Kind>) {
    s.wire <= s'.wire && forall k :: |s.wire| <= k < |s'.wire| ==> KindOf(s'.wire[k]) in ks
  }

  lemma EmitsTrans(a: Session, b: Session, c: Session, ks: set<Kind>)
    requires Emits(a, b, ks) && Emits(b, c, ks)
    ensures Emits(a, c, ks)
  {
    hide KindOf;
    forall k | |a.wire| <= k < |c.wire| ensures KindOf(c.wire[k]) in ks {
      if k < |b.wire| {
        assert c.wire[k] == b.wire[k];
      }
    }
  }

  lemma EmitOne(s: Session, f: Frame)
    ensures Emits(s, Emit(s, f).0, {KindOf(f)})
    ensures Emit(s, f).0.streams == s.streams && Emit(s, f).0.recvPending == s.recvPending
  {
    hide Encode, GrowTo, KindOf;
  }

  lemma SameWire(s: Session, s1: Session, s2: Session, ks: set<Kind>)
    requires s2.wire == s1.wire && (Emits(s, s1, ks) || s1.wire == s.wire)
    ensures Emits(s, s2, ks)
  {
  }

  /** The kinds of the frames a session crafts. */
  lemma Kinds(s: Session, sid: Sid, v: U32, p: seq<Byte>)
    requires |p| <= MAX_PAYLOAD
    ensures KindOf(RstFrame(sid, v)) == Abort && KindOf(FinFrame(sid)) == Finish
            && KindOf(CreditFrame(sid, v)) == Credit
    ensures |p| <= MAX_META ==> KindOf(SynFrame(sid, p)) == Opening
    ensures |p| <= MAX_DATA_FRAME ==> KindOf(DataFrame(sid, p)) == Bytes
    ensures KindOf(Frame(T_PING, F_ACK, SID_CONTROL, p)) == Answer && KindOf(PingFrame(v)) == Ping
    ensures KindOf(Frame(T_CAPACITY, 0, SID_CONTROL, p)) == Weight
            && KindOf(Frame(T_GOAWAY, 0, SID_CONTROL, p)) == Leave
  {
    FlagFacts();
  }

  // ---------------------------------------------------------------- received frames

  lemma SynEmits(s: Session, f: Frame)
    ensures Emits(s, OnSyn(s, f), {Abort})
  {
    hide Emit, KindOf, HasSyn, HasFin, HasRst, OddSid;
    Kinds(s, f.sid, CODE_REFUSED, []);
    EmitOne(s, RstFrame(f.sid, CODE_REFUSED));
  }

  lemma AbortEmits(s: Session, sid: Sid, code: U32)
    requires sid in s.streams
    ensures Emits(s, AbortStream(s, sid, code), {Abort})
  {
    hide Emit, KindOf;
    Kinds(s, sid, code, []);
    EmitOne(s, RstFrame(sid, code));
  }

  lemma DataEmits(s: Session, f: Frame)
    ensures Emits(s, OnStreamData(s, f), {Abort})
  {
    hide AbortStream, KindOf, HasFin, HasRst, Get32;
    if f.sid in s.streams {
      AbortEmits(s, f.sid, CODE_PROTOCOL);
      AbortEmits(s, f.sid, CODE_FLOW_CONTROL);
    }
  }

  lemma CreditEmits(s: Session, f: Frame, order: seq<Sid>)
    ensures Emits(s, OnWindowUpdate(s, f, order), {})
  {
    hide Sweep, KindOf, Get32;
    if |f.payload| == 4 {
      var _ := SweepSwept(s.(sendWin := s.sendWin + Get32(f.payload, 0)), order);
    }
  }

  lemma NoticeEmits(s: Session, f: Frame)
    ensures Emits(s, OnPing(s, f), if HasAck(f.flags) then {} else {Answer})
    ensures Emits(s, OnGoAway(s, f), {}) && Emits(s, OnCapacity(s, f), {})
  {
    hide Emit, Get32, HasAck, KindOf;
    Kinds(s, 0, 0, f.payload);
    EmitOne(s, Frame(T_PING, F_ACK, SID_CONTROL, f.payload));
  }

  lemma HelloEmits(s: Session, f: Frame, ack: bool)
    requires GoodConfig(s.cfg)
    ensures Emits(s, OnHello(s, f, ack), {Greeting})
  {
    hide Emit, ReadTlvs, HelloPayload, HasSyn, HasFin, HasRst, HasAck;
    var (p, _) := ReadTlvs(Params(s.peerMax, s.peerInit, s.sendWin, NO_INFO), f.payload, 0);
    var s1 := s.(peerMax := p.peerMax, peerInit := p.peerInit, sendWin := p.sendWin);
    var s2 := Queue(s1.(helloSeen := true), PeerHello(p.info));
    EmitOne(s2, HelloFrame(s2, true));
  }

  /** A stream frame is answered at most by resets, a ping by its answer, a greeting by a greeting. */
  function Replies(f: Frame): set<Kind> {
    match KindOf(f)
    case Ping => {Answer}
    case Greeting => {Greeting}
    case Finish => {Abort}
    case Opening => {Abort}
    case Abort => {Abort}
    case Bytes => {Abort}
    case Mixed => {Abort}
    case _ => {}
  }

  lemma ProcessEmits(s: Session, f: Frame, order: seq<Sid>)
    requires GoodConfig(s.cfg)
    ensures Emits(s, Process(s, f, order), Replies(f))
  {
    hide OnSyn, OnStreamData, OnWindowUpdate, OnPing, OnGoAway, OnCapacity, OnHello, HasSyn, HasFin, HasRst, HasAck;
    SynEmits(s, f);
    DataEmits(s, f);
    CreditEmits(s, f, order);
    NoticeEmits(s, f);
    HelloEmits(s, f, true);
    HelloEmits(s, f, false);
  }

  // ---------------------------------------------------------------- host calls

  lemma {:induction false} SendAllEmits(s: Session, sid: Sid, p: seq<Byte>)
    requires sid in s.streams
    ensures Emits(s, SendAll(s, sid, p).0, {Bytes})
    decreases |p|
  {
    hide Emit, Emits, KindOf;
    SameWire(s, s, s, {Bytes});
    if |p| > 0 {
      var k := Min(|p|, MAX_DATA_FRAME);
      Kinds(s, sid, 0, p[..k]);
      EmitOne(s, DataFrame(sid, p[..k]));
      var (s1, ok) := SendChunk(s, sid, p[..k]);
      SameWire(s, Emit(s, DataFrame(sid, p[..k])).0, s1, {Bytes});
      if ok {
        SendAllEmits(s1, sid, p[k..]);
        EmitsTrans(s, s1, SendAll(s1, sid, p[k..]).0, {Bytes});
      }
    }
  }

  lemma {:induction false} SessionCreditEmits(s: Session)
    ensures Emits(s, EmitSessionCredit(s), {Credit}) && EmitSessionCredit(s).streams == s.streams
    decreases s.recvPending
  {
    hide Emit, Emits, KindOf;
    SameWire(s, s, s, {Credit});
    if s.recvPending > 0 {
      var chunk := CreditChunk(s.recvPending);
      Kinds(s, SID_CONTROL, chunk, []);
      EmitOne(s, CreditFrame(SID_CONTROL, chunk));
      var (s1, ok) := Emit(s, CreditFrame(SID_CONTROL, chunk));
      if ok {
        var s2 := s1.(recvWin := s1.recvWin + chunk, recvPending := s1.recvPending - chunk);
        SameWire(s, s1, s2, {Credit});
        SessionCreditEmits(s2);
        EmitsTrans(s, s2, EmitSessionCredit(s2), {Credit});
      }
    }
  }

  lemma {:induction false} StreamCreditEmits(s: Session, sid: Sid)
    requires sid in s.streams
    ensures Emits(s, EmitStreamCredit(s, sid), {Credit})
    decreases s.streams[sid].recvPending
  {
    hide Emit, Emits, KindOf;
    SameWire(s, s, s, {Credit});
    var st := s.streams[sid];
    if st.recvPending > 0 {
      var chunk := CreditChunk(st.recvPending);
      Kinds(s, sid, chunk, []);
      EmitOne(s, CreditFrame(sid, chunk));
      var (s1, ok) := Emit(s, CreditFrame(sid, chunk));
      if ok {
        var s2 := s1.(streams := s1.streams[sid := st.(recvWin := st.recvWin + chunk,
                                                       recvPending := st.recvPending - chunk)]);
        SameWire(s, s1, s2, {Credit});
        StreamCreditEmits(s2, sid);
        EmitsTrans(s, s2, EmitStreamCredit(s2, sid), {Credit});
      }
    }
  }

  lemma ConsumeEmits(s: Session, sid: Sid, k: nat)
    ensures Emits(s, Consume(s, sid, k).0, {Credit})
  {
    hide EmitSessionCredit, EmitStreamCredit, Emits;
    var s0 := AddPending(s, k);
    var s1 := CreditSession(s0);
    SameWire(s, s, s0, {Credit});
    SessionCreditEmits(s0);
    SameWire(s0, s0, s0, {Credit});
    EmitsTrans(s, s0, s1, {Credit});
    SameWire(s, s, s, {Credit});
    if sid in s1.streams {
      var s2 := AddStreamPending(s1, sid, k);
      SameWire(s, s1, s2, {Credit});
      StreamCreditEmits(s2, sid);
      SameWire(s2, s2, s2, {Credit});
      EmitsTrans(s, s2, CreditStream(s2, sid), {Credit});
    }
  }

  lemma WriteEmits(s: Session, sid: Sid, p: seq<Byte>)
    ensures Emits(s, WriteStream(s, sid, p).0, {Bytes})
  {
    hide SendAll, KindOf;
    if sid in s.streams && Min(s.streams[sid].sendWin, s.sendWin) > 0 {
      SendAllEmits(s, sid, p[..Min(|p|, Min(s.streams[sid].sendWin, s.sendWin))]);
    }
  }

  lemma CapacityEmits(s: Session, w: U32)
    ensures Emits(s, SendCapacity(s, w).0, {Weight})
  {
    hide Emit, KindOf;
    Kinds(s, 0, 0, Put32(w));
    EmitOne(s, Frame(T_CAPACITY, 0, SID_CONTROL, Put32(w)));
  }

  lemma GoAwayEmits(s: Session, reason: U32)
    ensures Emits(s, SendGoAway(s, reason).0, {Leave})
  {
    hide Emit, KindOf;
    var p := Put32(reason) + Put32(s.maxRemote);
    Kinds(s, 0, 0, p);
    EmitOne(s.(localGoaway := true), Frame(T_GOAWAY, 0, SID_CONTROL, p));
  }

  lemma TimerEmits(s: Session, now: nat)
    ensures Emits(s, OnTimer(s, now).0, {Ping})
  {
    hide Emit, KindOf, PeerSilent;
    PingKind(s.timer.nonce);
    EmitOne(s, PingFrame(s.timer.nonce));
  }

  lemma PingKind(nonce: nat)
    ensures KindOf(PingFrame(nonce)) == Ping
  {
  }

  lemma OpenEmits(s: Session, meta: seq<Byte>)
    ensures Emits(s, OpenStream(s, meta).0, {Opening})
  {
    hide Emit, KindOf;
    if |meta| <= MAX_META {
      Kinds(s, s.nextSid, 0, meta);
      EmitOne(s.(nextSid := (s.nextSid as int + 2) % U32_LIMIT), SynFrame(s.nextSid, meta));
    }
  }

  lemma ResetEmits(s: Session, sid: Sid, code: U32)
    ensures Emits(s, ResetStream(s, sid, code).0, {Abort})
  {
    hide Emit, KindOf;
    Kinds(s, sid, code, []);
    EmitOne(s, RstFrame(sid, code));
  }

  lemma CloseEmits(s: Session, sid: Sid)
    ensures Emits(s, CloseStream(s, sid).0, {Finish})
  {
    hide Emit, KindOf;
    Kinds(s, sid, 0, []);
    EmitOne(s, FinFrame(sid));
  }

  /** Each call puts its own kind of frame on the wire, if any. */
  function Saying(c: Call): set<Kind> {
    match c
    case CallOpen(_) => {Opening}
    case CallWrite(_, _) => {Bytes}
    case CallClose(_) => {Finish}
    case CallReset(_, _) => {Abort}
    case CallConsume(_, _) => {Credit}
    case CallCapacity(_) => {Weight}
    case CallGoAway(_) => {Leave}
    case CallTimer(_) => {Ping}
    case CallAdvance(_) => {}
    case CallPop => {}
  }

  lemma CallEmits(n: Node, c: Call)
    ensures Emits(n.s, Do(n, c).s, Saying(c))
  {
    hide OpenStream, WriteStream, CloseStream, ResetStream, Consume, SendCapacity, SendGoAway, OnTimer, KindOf;
    match c
    case CallOpen(meta) => OpenEmits(n.s, meta);
    case CallWrite(sid, p) => WriteEmits(n.s, sid, p);
    case CallClose(sid) => CloseEmits(n.s, sid);
    case CallReset(sid, code) => ResetEmits(n.s, sid, code);
    case CallConsume(sid, k) => ConsumeEmits(n.s, sid, k);
    case CallCapacity(w) => CapacityEmits(n.s, w);
    case CallGoAway(r) => GoAwayEmits(n.s, r);
    case CallTimer(now) => TimerEmits(n.s, now);
    case CallAdvance(_) =>
    case CallPop =>
  }

  function Utters(st: Step): set<Kind> {
    match st
    case HostCall(c) => Saying(c)
    case PeerFrame(f, _) => Replies(f)
    case PeerGarbage => {}
  }

  /** Whatever the step, whatever the state. */
  lemma StepEmits(n: Node, st: Step)
    requires GoodConfig(n.s.cfg)
    ensures Emits(n.s, Next(n, st).s, Utters(st))
  {
    hide Do, Process, Emits, Replies, Saying;
    match st
    case HostCall(c) => CallEmits(n, c);
    case PeerFrame(f, order) =>
      ProcessEmits(n.s, f, order);
      SameWire(n.s, n.s, n.s, Replies(f));
    case PeerGarbage => SameWire(n.s, n.s, Next(n, st).s, {});
  }
}
