/** What a received frame costs its sender: which frames end the session and with what code, and which are answered
    and how. Stated by outcome, for a session that lives and whatever frame comes. */
module Faults {
  import opened Commons
  import opened Wire
  import opened Codec
  import opened Session
  import opened Trace
  import opened Emitting
  import opened Notices

  /** Bytes for a stream that is there. */
  predicate Carries(s: Session, f: Frame) {
    && s.helloSeen && f.typ == T_DATA && !HasSyn(f.flags) && !HasRst(f.flags)
    && f.sid != SID_CONTROL && f.sid in s.streams && f.payload != []
  }

  /** The peer had finished the stream. */
  predicate Late(s: Session, f: Frame) { Carries(s, f) && s.streams[f.sid].life.HalfRemote? }

  predicate LegalSyn(s: Session, f: Frame) {
    && s.helloSeen && IsSyn(f) && !Own(s.role, f.sid) && f.sid != SID_CONTROL && f.sid !in s.streams
    && f.sid > s.maxRemote && |f.payload| <= MAX_META
  }

  /** The payload length of a frame of the connection, and its stream. */
  predicate WellShaped(f: Frame) {
    match KindOf(f)
    case Credit => |f.payload| == 4
    case Ping => f.sid == SID_CONTROL && |f.payload| == 8
    case Answer => f.sid == SID_CONTROL && |f.payload| == 8
    case Leave => f.sid == SID_CONTROL && |f.payload| >= 8
    case Weight => f.sid == SID_CONTROL && |f.payload| == 4
    case Greeting => f.sid == SID_CONTROL
    case Unknown => false
    case Opening => true
    case Mixed => true
    case Bytes => f.sid != SID_CONTROL
    case Finish => f.sid != SID_CONTROL
    case Abort => f.sid != SID_CONTROL
  }

  function ReadGreeting(s: Session, f: Frame): (Params, bool) {
    ReadTlvs(Params(s.peerMax, s.peerInit, s.sendWin, NO_INFO), f.payload, 0)
  }

  /** PROTOCOL: out of turn, ill-shaped, a greeting that cannot be read, or a SYN of an id the peer may not use. */
  predicate Malformed(s: Session, f: Frame) {
    || (s.helloSeen <==> KindOf(f) == Greeting)
    || !WellShaped(f)
    || (KindOf(f) == Greeting && !ReadGreeting(s, f).1)
    || (IsSyn(f) && !LegalSyn(s, f))
  }

  /** FLOW_CONTROL: more bytes than the connection has credit for, or credit past the limit of 2^48. */
  predicate Overdraws(s: Session, f: Frame) {
    || (Carries(s, f) && !Late(s, f) && |f.payload| > s.recvWin)
    || (s.helloSeen && f.typ == T_WINDOW_UPDATE && |f.payload| == 4
        && if f.sid == SID_CONTROL then s.sendWin + Get32(f.payload, 0) > WINDOW_LIMIT
           else f.sid in s.streams && s.streams[f.sid].sendWin + Get32(f.payload, 0) > WINDOW_LIMIT)
  }

  /** What is to be sent back: a reset for a stream that is refused, overrun or written after its end, the answer to
      a ping, an acceptor's greeting. */
  function Reply(s: Session, f: Frame): Option<Frame>
    requires BlobsFit(s.cfg)
  {
    if LegalSyn(s, f) && Refuses(s) then Some(RstFrame(f.sid, CODE_REFUSED))
    else if Late(s, f) then Some(RstFrame(f.sid, CODE_PROTOCOL))
    else if Carries(s, f) && s.streams[f.sid].recvWin < |f.payload| <= s.recvWin then
      Some(RstFrame(f.sid, CODE_FLOW_CONTROL))
    else if s.helloSeen && KindOf(f) == Ping && WellShaped(f) then
      Some(Frame(T_PING, F_ACK, SID_CONTROL, f.payload))
    else if f.typ == T_HELLO && !Malformed(s, f) && s.role.Acceptor? && !s.helloSent then Some(HelloFrame(s, true))
    else None
  }

  /** The code the session ends with, if it does. */
  function Verdict(s: Session, f: Frame): Option<U32>
    requires BlobsFit(s.cfg)
  {
    if Malformed(s, f) then Some(CODE_PROTOCOL)
    else if Overdraws(s, f) then Some(CODE_FLOW_CONTROL)
    else if Reply(s, f).Some? && !HasRoom(s, Reply(s, f).value) then Some(CODE_INTERNAL)
    else None
  }

  function Sent(s: Session, f: Frame): seq<Frame>
    requires BlobsFit(s.cfg)
  {
    if Verdict(s, f).None? && Reply(s, f).Some? then [Reply(s, f).value] else []
  }

  ghost predicate Outcome(s: Session, s': Session, code: Option<U32>, sent: seq<Frame>) {
    && s.events <= s'.events && (s'.dead <==> code.Some?) && s'.wire == s.wire + sent
    && (forall c: U32 :: Fatal(c) in s'.events[|s.events|..] <==> code == Some(c))
  }

  lemma Quiet(s: Session, s': Session, es: seq<Event>)
    requires !s.dead && !s'.dead && s'.events == s.events + es && s'.wire == s.wire
    requires forall e :: e in es ==> !e.Fatal?
    ensures Outcome(s, s', None, [])
  {
    assert s'.events[|s.events|..] == es;
  }

  lemma Kills(s: Session, code: U32)
    requires !s.dead
    ensures Outcome(s, RaiseFatal(s, code), Some(code), [])
  {
    assert RaiseFatal(s, code).events[|s.events|..] == [Fatal(code)];
  }

  /** A frame goes out, or the session ends for want of room; `before` and `after` are reported around it. */
  lemma Answers(s: Session, s': Session, f: Frame, before: seq<Event>, after: seq<Event>)
    requires !s.dead && forall e :: e in before + after ==> !e.Fatal?
    requires s'.dead == !HasRoom(s, f) && s'.wire == if HasRoom(s, f) then s.wire + [f] else s.wire
    requires s'.events == s.events + before + (if HasRoom(s, f) then [] else [Fatal(CODE_INTERNAL)]) + after
    ensures Outcome(s, s', if HasRoom(s, f) then None else Some(CODE_INTERNAL), if HasRoom(s, f) then [f] else [])
  {
    var es := before + (if HasRoom(s, f) then [] else [Fatal(CODE_INTERNAL)]) + after;
    assert s'.events[|s.events|..] == es;
    assert forall e :: e in es ==> e in before + after || (e == Fatal(CODE_INTERNAL) && !HasRoom(s, f));
  }

  lemma SynKind(f: Frame)
    requires IsSyn(f)
    ensures KindOf(f) != Greeting && KindOf(f) != Ping && WellShaped(f)
  {
    hide HasSyn, HasFin, HasRst, HasAck;
  }

  lemma SynOutcome(s: Session, f: Frame)
    requires GoodConfig(s.cfg) && !s.dead && s.helloSeen && IsSyn(f)
    ensures Outcome(s, OnSyn(s, f), Verdict(s, f), Sent(s, f))
  {
    hide Outcome, Emitted, HasFin, HasRst, HasSyn, OddSid, KindOf, WellShaped, ReadGreeting, HelloFrame;
    SynKind(f);
    if !LegalSyn(s, f) {
      Kills(s, CODE_PROTOCOL);
    } else if Refuses(s) {
      var g := RstFrame(f.sid, CODE_REFUSED);
      EmittedFields(s, g);
      Answers(s, OnSyn(s, f), g, [], []);
    } else {
      Quiet(s, OnSyn(s, f), [StreamOpened(f.sid, f.payload)]
                            + (if HasRst(f.flags) then [StreamReset(f.sid, CODE_NO_ERROR)]
                               else if HasFin(f.flags) then [StreamClosed(f.sid)] else []));
    }
  }

  lemma DataKind(f: Frame)
    requires f.typ == T_DATA && !HasSyn(f.flags)
    ensures KindOf(f) != Greeting && KindOf(f) != Ping && (WellShaped(f) <==> f.sid != SID_CONTROL)
  {
    hide HasSyn, HasFin, HasRst, HasAck;
  }

  lemma DataOutcome(s: Session, f: Frame)
    requires GoodConfig(s.cfg) && !s.dead && s.helloSeen && f.typ == T_DATA && !HasSyn(f.flags)
    ensures Outcome(s, OnStreamData(s, f), Verdict(s, f), Sent(s, f))
  {
    hide Outcome, HasFin, HasRst, HasSyn, KindOf, WellShaped, ReadGreeting, HelloFrame, AbortStream, TakeData, TakeFin,
      Get32, HasRoom;
    DataKind(f);
    Kills(s, CODE_PROTOCOL);
    Kills(s, CODE_FLOW_CONTROL);
    Quiet(s, s, []);
    if f.sid in s.streams {
      AbortOutcome(s, f.sid, CODE_PROTOCOL);
      AbortOutcome(s, f.sid, CODE_FLOW_CONTROL);
      TakenOutcome(s, f);
      ResetOutcome(s, f.sid, if |f.payload| >= 4 then Get32(f.payload, 0) else CODE_NO_ERROR);
    }
  }

  lemma AbortOutcome(s: Session, sid: Sid, code: U32)
    requires !s.dead && sid in s.streams
    ensures var g := RstFrame(sid, code);
            Outcome(s, AbortStream(s, sid, code), if HasRoom(s, g) then None else Some(CODE_INTERNAL),
                    if HasRoom(s, g) then [g] else [])
  {
    hide Outcome, Emitted;
    var g := RstFrame(sid, code);
    EmittedFields(s, g);
    Answers(s, AbortStream(s, sid, code), g, [], [StreamReset(sid, CODE_NO_ERROR)]);
  }

  lemma ResetOutcome(s: Session, sid: Sid, code: U32)
    requires !s.dead && sid in s.streams
    ensures Outcome(s, Remove(Queue(s, StreamReset(sid, code)), sid), None, [])
  {
    hide Outcome;
    Quiet(s, Remove(Queue(s, StreamReset(sid, code)), sid), [StreamReset(sid, code)]);
  }

  lemma TakenOutcome(s: Session, f: Frame)
    requires !s.dead && f.sid in s.streams
    ensures Outcome(s, TakeFin(s, f.sid), None, []) && Outcome(s, TakeData(s, f), None, [])
    ensures f.sid in TakeData(s, f).streams && Outcome(s, TakeFin(TakeData(s, f), f.sid), None, [])
  {
    hide Outcome;
    Quiet(s, TakeFin(s, f.sid), [StreamClosed(f.sid)]);
    Quiet(s, TakeData(s, f), [StreamData(f.sid, f.payload)]);
    Quiet(s, TakeFin(TakeData(s, f), f.sid), [StreamData(f.sid, f.payload), StreamClosed(f.sid)]);
  }

  lemma {:induction false} SweepEvents(s: Session, order: seq<Sid>) returns (es: seq<Event>)
    ensures var s' := Sweep(s, order);
            s'.events == s.events + es && s'.dead == s.dead && s'.wire == s.wire && forall e :: e in es ==> e.Writable?
    decreases |order|
  {
    es := [];
    if order != [] {
      var rest := SweepEvents(Wake(s, order[0]), order[1..]);
      es := (if Wake(s, order[0]) == s then [] else [Writable(order[0])]) + rest;
      hide Sweep;
      assert Wake(s, order[0]).events == s.events + if Wake(s, order[0]) == s then [] else [Writable(order[0])];
    }
  }

  lemma CreditOutcome(s: Session, f: Frame, order: seq<Sid>)
    requires GoodConfig(s.cfg) && !s.dead && s.helloSeen && f.typ == T_WINDOW_UPDATE
    ensures Outcome(s, OnWindowUpdate(s, f, order), Verdict(s, f), Sent(s, f))
  {
    hide Outcome, Sweep, ReadGreeting, HelloFrame, Get32, HasRoom;
    if |f.payload| != 4 {
      Kills(s, CODE_PROTOCOL);
    } else if Overdraws(s, f) {
      KillsBy(s, OnWindowUpdate(s, f, order), CODE_FLOW_CONTROL);
    } else if f.sid == SID_CONTROL {
      var s1 := s.(sendWin := s.sendWin + Get32(f.payload, 0));
      var es := SweepEvents(s1, order);
      Quiet(s, Sweep(s1, order), es);
      Quiet(s, s1, []);
    } else {
      var s' := OnWindowUpdate(s, f, order);
      Quiet(s, s', if s'.events == s.events then [] else [Writable(f.sid)]);
    }
  }

  lemma KillsBy(s: Session, s': Session, code: U32)
    requires !s.dead && s'.dead && s'.events == s.events + [Fatal(code)] && s'.wire == s.wire
    ensures Outcome(s, s', Some(code), [])
  {
    assert s'.events[|s.events|..] == [Fatal(code)];
  }

  lemma ControlOutcome(s: Session, f: Frame)
    requires GoodConfig(s.cfg) && !s.dead && s.helloSeen
    ensures f.typ == T_PING ==> Outcome(s, OnPing(s, f), Verdict(s, f), Sent(s, f))
    ensures f.typ == T_GOAWAY ==> Outcome(s, OnGoAway(s, f), Verdict(s, f), Sent(s, f))
    ensures f.typ == T_CAPACITY ==> Outcome(s, OnCapacity(s, f), Verdict(s, f), Sent(s, f))
  {
    hide Outcome, ReadGreeting, HelloFrame, Get32, Emitted, HasAck;
    Kills(s, CODE_PROTOCOL);
    if f.typ == T_PING && WellShaped(f) {
      if HasAck(f.flags) {
        Quiet(s, OnPing(s, f), []);
      } else {
        var g := Frame(T_PING, F_ACK, SID_CONTROL, f.payload);
        EmittedFields(s, g);
        Answers(s, OnPing(s, f), g, [], []);
      }
    } else if f.typ == T_GOAWAY && WellShaped(f) {
      Quiet(s, OnGoAway(s, f), [GoAway(Get32(f.payload, 0), Get32(f.payload, 4))]);
    } else if f.typ == T_CAPACITY && WellShaped(f) {
      Quiet(s, OnCapacity(s, f), [Capacity(Get32(f.payload, 0))]);
    }
  }

  lemma HelloOutcome(s: Session, f: Frame)
    requires GoodConfig(s.cfg) && !s.dead && (f.typ == T_HELLO || f.typ == T_HELLO_ACK)
    ensures Outcome(s, OnHello(s, f, f.typ == T_HELLO_ACK), Verdict(s, f), Sent(s, f))
  {
    hide Outcome, ReadTlvs, HelloPayload, Emitted, HasRoom;
    var s' := OnHello(s, f, f.typ == T_HELLO_ACK);
    if Malformed(s, f) {
      KillsBy(s, s', CODE_PROTOCOL);
    } else {
      var (p, ok) := ReadGreeting(s, f);
      var e := PeerHello(p.info);
      var s2 := Queue(s.(peerMax := p.peerMax, peerInit := p.peerInit, sendWin := p.sendWin, helloSeen := true), e);
      if f.typ == T_HELLO && s.role.Acceptor? && !s.helloSent {
        var g := HelloFrame(s, true);
        EmittedFields(s2, g);
        SameRoom(s, s2, g);
        Answers(s, s', g, [e], []);
      } else {
        Quiet(s, s', [e]);
      }
    }
  }

  lemma SameRoom(s: Session, s': Session, f: Frame)
    requires s'.out == s.out && s'.cap == s.cap && s'.cfg == s.cfg
    ensures HasRoom(s', f) == HasRoom(s, f)
  {
  }

  /** For every live session and every frame: it ends with exactly the code due, if any, and sends exactly the reply
      due, if any. */
  lemma FrameJudged(s: Session, f: Frame, order: seq<Sid>)
    requires GoodConfig(s.cfg) && !s.dead
    ensures Outcome(s, Process(s, f, order), Verdict(s, f), Sent(s, f))
  {
    hide Outcome, OnSyn, OnStreamData, OnWindowUpdate, OnPing, OnGoAway, OnHello, OnCapacity;
    if f.typ == T_HELLO || f.typ == T_HELLO_ACK {
      HelloOutcome(s, f);
    } else if !s.helloSeen {
      Kills(s, CODE_PROTOCOL);
    } else if IsSyn(f) {
      SynOutcome(s, f);
    } else if f.typ == T_DATA {
      DataOutcome(s, f);
    } else if f.typ == T_WINDOW_UPDATE {
      CreditOutcome(s, f, order);
    } else {
      Kills(s, CODE_PROTOCOL);
      ControlOutcome(s, f);
    }
  }
}
