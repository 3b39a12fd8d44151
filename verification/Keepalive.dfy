/** Keepalive (mux_on_timer and on_ping of libmux/src/session.c). A session never declares a peer dead that
    has answered its last ping; and a silent peer is declared dead exactly when the timeout is no longer
    than the heartbeat, since every later ping restarts the wait. */
module Keepalive {
  import opened Wire
  import opened Codec
  import opened Session
  import opened Node
  import opened NodeRuns

  // ---------------------------------------------------------------- what touches the timer

  lemma EmitTimer(s: Session, f: Frame)
    ensures Emit(s, f).0.timer == s.timer && Emit(s, f).0.streams == s.streams
    ensures Emit(s, f).0.recvPending == s.recvPending
  {
    hide GrowTo, Encode;
  }

  lemma {:induction false} SendAllTimer(s: Session, sid: Sid, p: seq<Byte>)
    requires sid in s.streams
    ensures SendAll(s, sid, p).0.timer == s.timer
    decreases |p|
  {
    hide Emit;
    if |p| > 0 {
      var k := Min(|p|, MAX_DATA_FRAME);
      EmitTimer(s, DataFrame(sid, p[..k]));
      var (s1, ok) := SendChunk(s, sid, p[..k]);
      if ok {
        SendAllTimer(s1, sid, p[k..]);
      }
    }
  }

  lemma {:induction false} SessionCreditTimer(s: Session)
    ensures EmitSessionCredit(s).timer == s.timer && EmitSessionCredit(s).streams == s.streams
    decreases s.recvPending
  {
    hide Emit;
    if s.recvPending > 0 {
      var chunk := CreditChunk(s.recvPending);
      EmitTimer(s, CreditFrame(SID_CONTROL, chunk));
      var (s1, ok) := Emit(s, CreditFrame(SID_CONTROL, chunk));
      if ok {
        SessionCreditTimer(s1.(recvWin := s1.recvWin + chunk, recvPending := s1.recvPending - chunk));
      }
    }
  }

  lemma {:induction false} StreamCreditTimer(s: Session, sid: Sid)
    requires sid in s.streams
    ensures EmitStreamCredit(s, sid).timer == s.timer
    decreases s.streams[sid].recvPending
  {
    hide Emit;
    var st := s.streams[sid];
    if st.recvPending > 0 {
      var chunk := CreditChunk(st.recvPending);
      EmitTimer(s, CreditFrame(sid, chunk));
      var (s1, ok) := Emit(s, CreditFrame(sid, chunk));
      if ok {
        StreamCreditTimer(s1.(streams := s1.streams[sid := st.(recvWin := st.recvWin + chunk,
                                                               recvPending := st.recvPending - chunk)]), sid);
      }
    }
  }

  lemma ConsumeTimer(s: Session, sid: Sid, k: nat)
    ensures Consume(s, sid, k).0.timer == s.timer
  {
    hide EmitSessionCredit, EmitStreamCredit;
    var s1 := CreditSession(AddPending(s, k));
    SessionCreditTimer(AddPending(s, k));
    if sid in s1.streams {
      StreamCreditTimer(AddStreamPending(s1, sid, k), sid);
    }
  }

  lemma WriteTimer(s: Session, sid: Sid, p: seq<Byte>)
    ensures WriteStream(s, sid, p).0.timer == s.timer
  {
    hide SendAll;
    if sid in s.streams && Min(s.streams[sid].sendWin, s.sendWin) > 0 {
      SendAllTimer(s, sid, p[..Min(|p|, Min(s.streams[sid].sendWin, s.sendWin))]);
    }
  }

  /** Every call but mux_on_timer leaves the timer alone. */
  lemma OtherCallTimer(n: Node, c: Call)
    requires !c.CallTimer?
    ensures Do(n, c).s.timer == n.s.timer
  {
    hide Emit, Consume, WriteStream;
    match c
    case CallOpen(meta) =>
      if |meta| <= MAX_META {
        EmitTimer(n.s.(nextSid := (n.s.nextSid as int + 2) % U32_LIMIT), SynFrame(n.s.nextSid, meta));
      }
    case CallWrite(sid, p) => WriteTimer(n.s, sid, p);
    case CallClose(sid) => EmitTimer(n.s, FinFrame(sid));
    case CallReset(sid, code) => EmitTimer(n.s, RstFrame(sid, code));
    case CallConsume(sid, k) => ConsumeTimer(n.s, sid, k);
    case CallCapacity(w) => EmitTimer(n.s, Frame(T_CAPACITY, 0, SID_CONTROL, Put32(w)));
    case CallGoAway(reason) =>
      EmitTimer(n.s.(localGoaway := true), Frame(T_GOAWAY, 0, SID_CONTROL, Put32(reason) + Put32(n.s.maxRemote)));
    case _ =>
  }

  lemma {:induction false} SweepTimer(s: Session, order: seq<Sid>)
    ensures Sweep(s, order).timer == s.timer
    decreases |order|
  {
    if order != [] {
      SweepTimer(Wake(s, order[0]), order[1..]);
    }
  }

  /** A pong for an outstanding ping, as on_ping accepts it. */
  predicate Answer(n: Node, st: Step) {
    && st.PeerFrame? && !n.s.dead && n.s.helloSeen
    && st.f.typ == T_PING && HasAck(st.f.flags) && st.f.sid == SID_CONTROL && |st.f.payload| == 8
  }

  lemma SynTimer(s: Session, f: Frame)
    ensures OnSyn(s, f).timer == s.timer
  {
    hide Emit, HasSyn, HasFin, HasRst, OddSid;
    EmitTimer(s, RstFrame(f.sid, CODE_REFUSED));
  }

  lemma AbortTimer(s: Session, sid: Sid, code: U32)
    requires sid in s.streams
    ensures AbortStream(s, sid, code).timer == s.timer
  {
    hide Emit;
    EmitTimer(s, RstFrame(sid, code));
  }

  lemma DataTimer(s: Session, f: Frame)
    ensures OnStreamData(s, f).timer == s.timer
  {
    hide AbortStream, HasFin, HasRst, Get32;
    if f.sid in s.streams {
      AbortTimer(s, f.sid, CODE_PROTOCOL);
      AbortTimer(s, f.sid, CODE_FLOW_CONTROL);
    }
  }

  lemma ControlTimer(s: Session, f: Frame, order: seq<Sid>)
    requires GoodConfig(s.cfg)
    ensures OnWindowUpdate(s, f, order).timer == s.timer && OnGoAway(s, f).timer == s.timer
    ensures OnCapacity(s, f).timer == s.timer
    ensures OnHello(s, f, true).timer == s.timer && OnHello(s, f, false).timer == s.timer
  {
    hide Emit, Sweep, ReadTlvs, Get32, HelloPayload;
    if |f.payload| == 4 {
      SweepTimer(s.(sendWin := s.sendWin + Get32(f.payload, 0)), order);
    }
    HelloTimer(s, f);
  }

  lemma HelloTimer(s: Session, f: Frame)
    requires GoodConfig(s.cfg)
    ensures OnHello(s, f, true).timer == s.timer && OnHello(s, f, false).timer == s.timer
  {
    hide ReadTlvs, HelloPayload, Encode, GrowTo;
  }

  /** A received frame leaves the timer alone, or is an answer and settles the ping. */
  lemma ReceiveTimer(n: Node, f: Frame, order: seq<Sid>)
    requires GoodConfig(n.s.cfg)
    ensures var t, t' := n.s.timer, Receive(n, f, order).s.timer;
            t' == if Answer(n, PeerFrame(f, order)) then t.(outstanding := false) else t
  {
    hide OnSyn, OnStreamData, OnWindowUpdate, OnGoAway, OnCapacity, OnHello, Emit, HasSyn, HasAck;
    SynTimer(n.s, f);
    DataTimer(n.s, f);
    ControlTimer(n.s, f, order);
    EmitTimer(n.s, Frame(T_PING, F_ACK, SID_CONTROL, f.payload));
  }

  // ---------------------------------------------------------------- no false alarm

  /** The step sends a ping at time `t`. */
  predicate Pings(n: Node, st: Step, t: nat)
    requires GoodConfig(n.s.cfg)
  {
    st == HostCall(CallTimer(t)) && Next(n, st).s.wire == n.s.wire + [PingFrame(n.s.timer.nonce)]
  }

  lemma TimerStep(s: Session, now: nat)
    ensures var s1 := OnTimer(s, now).0;
            s1.timer.outstanding ==>
              || (s1.timer.sentMs == now && s1.wire == s.wire + [PingFrame(s.timer.nonce)])
              || (s.timer.outstanding && s1.timer.sentMs == s.timer.sentMs)
  {
    hide Encode, GrowTo, PingFrame;
  }

  lemma StepTimer(n: Node, st: Step)
    requires GoodConfig(n.s.cfg)
    ensures var t, t' := n.s.timer, Next(n, st).s.timer;
            t'.outstanding ==> Pings(n, st, t'.sentMs) || (t.outstanding && t'.sentMs == t.sentMs && !Answer(n, st))
  {
    hide OnTimer, Receive, PingFrame, DoOpen, DoWrite, DoClose, DoReset, DoConsume, DoCapacity, DoGoAway, DoPop,
        DoAdvance;
    match st
    case HostCall(c) => if c.CallTimer? { TimerStep(n.s, c.now); } else { OtherCallTimer(n, c); }
    case PeerFrame(f, order) => ReceiveTimer(n, f, order);
    case PeerGarbage =>
  }

  /** Step `j` sent a ping at time `t`, and no answer came before step `i`. */
  ghost predicate Unanswered(ns: seq<Node>, sts: seq<Step>, j: nat, i: nat, t: nat) {
    && j < i <= |sts| < |ns| && GoodConfig(ns[j].s.cfg) && Pings(ns[j], sts[j], t)
    && forall k :: j < k < i ==> !Answer(ns[k], sts[k])
  }

  /** In every run: an outstanding ping was sent at the recorded time and has not been answered since. */
  lemma {:induction false} OutstandingIsUnanswered(raw: Config, role: Role, ns: seq<Node>, sts: seq<Step>, i: nat)
    requires IsRun(raw, role, ns, sts) && i < |ns| && ns[i].s.timer.outstanding
    ensures exists j: nat :: Unanswered(ns, sts, j, i, ns[i].s.timer.sentMs)
    decreases i
  {
    hide Next, Pings, Answer, New, Enabled;
    if i == 0 {
      NewTimer(raw, role);
    } else {
      assert ns[i] == Next(ns[i - 1], sts[i - 1]);
      StepTimer(ns[i - 1], sts[i - 1]);
      var t := ns[i].s.timer.sentMs;
      if Pings(ns[i - 1], sts[i - 1], t) {
        assert Unanswered(ns, sts, i - 1, i, t);
      } else {
        OutstandingIsUnanswered(raw, role, ns, sts, i - 1);
        var j: nat :| Unanswered(ns, sts, j, i - 1, t);
        assert Unanswered(ns, sts, j, i, t);
      }
    }
  }

  lemma NewTimer(raw: Config, role: Role)
    requires New(raw, role).Some?
    ensures !Start(New(raw, role).value).s.timer.outstanding
  {
    hide Encode, GrowTo, HelloPayload;
  }

  /** No false alarm: when a session with room for a ping dies in mux_on_timer, a ping has gone unanswered
      for at least the timeout. */
  lemma NoFalseAlarm(raw: Config, role: Role, ns: seq<Node>, sts: seq<Step>, i: nat, now: nat)
    requires IsRun(raw, role, ns, sts) && i < |sts| && sts[i] == HostCall(CallTimer(now))
    requires !ns[i].s.dead && ns[i + 1].s.dead && HasRoom(ns[i].s, PingFrame(ns[i].s.timer.nonce))
    ensures exists j: nat, t: nat :: Unanswered(ns, sts, j, i, t)
              && 0 < ns[i].s.cfg.keepaliveTimeoutMs <= (now - t) % U64_LIMIT
  {
    hide Unanswered;
    TimerKills(raw, role, ns, sts, i, now);
    OutstandingIsUnanswered(raw, role, ns, sts, i);
    var j: nat :| Unanswered(ns, sts, j, i, ns[i].s.timer.sentMs);
  }

  lemma TimerKills(raw: Config, role: Role, ns: seq<Node>, sts: seq<Step>, i: nat, now: nat)
    requires IsRun(raw, role, ns, sts) && i < |sts| && sts[i] == HostCall(CallTimer(now))
    requires !ns[i].s.dead && ns[i + 1].s.dead && HasRoom(ns[i].s, PingFrame(ns[i].s.timer.nonce))
    ensures PeerSilent(ns[i].s, now)
  {
    hide Encode, GrowTo, PingFrame, New, Enabled;
    assert ns[i + 1] == Next(ns[i], sts[i]);
  }

  // ---------------------------------------------------------------- a silent peer

  /** `k` calls of mux_on_timer from time `now`, each at the deadline the one before returned, the output
      being drained in between and nothing received. */
  function Ticks(s: Session, now: nat, k: nat): Session
    decreases k
  {
    if k == 0 then s else var (s1, next) := OnTimer(s, now); Ticks(Advance(s1, |s1.out|), next, k - 1)
  }

  /** A drained output buffer has room for a ping. */
  predicate RoomToPing(s: Session) { HEADER_SIZE + 8 <= Max(s.cap, s.cfg.maxOutBuffer) }

  lemma DeadStays(s: Session, now: nat, k: nat)
    requires s.dead
    ensures Ticks(s, now, k).dead
    decreases k
  {
    if k > 0 {
      DeadStays(Advance(s, |s.out|), NO_DEADLINE, k - 1);
    }
  }

  /** The next ping is due now; if one is out, it was sent a heartbeat ago. */
  predicate Due(s: Session, now: nat) {
    && !s.dead && s.cfg.heartbeatMs != 0 && s.timer.started && s.timer.dueMs == now && RoomToPing(s) && s.out == []
    && (s.timer.outstanding ==> s.timer.sentMs + s.cfg.heartbeatMs == now)
  }

  predicate Overwrites(s: Session) { s.cfg.keepaliveTimeoutMs == 0 || s.cfg.keepaliveTimeoutMs > s.cfg.heartbeatMs }

  /** A ping goes out; the wait for an answer starts anew. */
  lemma PingGoesOut(s: Session, now: nat)
    requires Due(s, now) && (s.timer.outstanding ==> Overwrites(s))
    requires now + s.cfg.heartbeatMs + s.cfg.keepaliveTimeoutMs < U64_LIMIT
    ensures var (s1, next) := OnTimer(s, now);
            var s2 := Advance(s1, |s1.out|);
            && !s1.dead && RoomToPing(s2) && s2.out == [] && s2.cfg == s.cfg && s2.timer.started && s2.timer.outstanding
            && s2.timer.sentMs == now && s2.timer.dueMs == now + s.cfg.heartbeatMs
            && next == if Overwrites(s) then now + s.cfg.heartbeatMs else now + s.cfg.keepaliveTimeoutMs
  {
    hide Encode, GrowTo, PeerSilent, PingFrame, NextDeadline;
    NotSilent(s, now);
    NoWrap(now + s.cfg.heartbeatMs);
    PingSize(s.timer.nonce);
    NextCall(OnTimer(s, now).0, now);
  }

  lemma NotSilent(s: Session, now: nat)
    requires Due(s, now) && (s.timer.outstanding ==> Overwrites(s)) && now < U64_LIMIT
    ensures !PeerSilent(s, now)
  {
    if s.timer.outstanding {
      NoWrap(now - s.timer.sentMs);
    }
  }

  lemma NoWrap(t: nat)
    requires t < U64_LIMIT
    ensures t % U64_LIMIT == t
  {
  }

  lemma PingSize(nonce: nat)
    ensures |PingFrame(nonce).payload| == 8
  {
  }

  lemma NextCall(s: Session, now: nat)
    requires s.timer.outstanding && s.timer.sentMs == now && s.timer.dueMs == now + s.cfg.heartbeatMs
    requires now + s.cfg.keepaliveTimeoutMs < U64_LIMIT
    ensures NextDeadline(s) == if Overwrites(s) then now + s.cfg.heartbeatMs else now + s.cfg.keepaliveTimeoutMs
  {
    NoWrap(now + s.cfg.keepaliveTimeoutMs);
  }

  /** With a longer timeout every ping overwrites the time of the one before, and nothing is ever detected. */
  lemma {:induction false} NeverDetected(s: Session, now: nat, k: nat)
    requires Due(s, now) && Overwrites(s)
    requires now + (k + 1) * s.cfg.heartbeatMs + s.cfg.keepaliveTimeoutMs < U64_LIMIT
    ensures !Ticks(s, now, k).dead
    decreases k
  {
    hide OnTimer;
    if k > 0 {
      assert (k + 1) * s.cfg.heartbeatMs == k * s.cfg.heartbeatMs + s.cfg.heartbeatMs;
      PingGoesOut(s, now);
      var (s1, next) := OnTimer(s, now);
      NeverDetected(Advance(s1, |s1.out|), next, k - 1);
    }
  }

  /** With a timeout no longer than the heartbeat the second call after the ping finds it unanswered. */
  lemma Detected(s: Session, now: nat, k: nat)
    requires Due(s, now) && !s.timer.outstanding && !Overwrites(s)
    requires now + s.cfg.heartbeatMs + s.cfg.keepaliveTimeoutMs < U64_LIMIT
    ensures Ticks(s, now, k).dead <==> k >= 2
  {
    hide OnTimer, Advance;
    if k > 0 {
      PingGoesOut(s, now);
      var (s1, next) := OnTimer(s, now);
      var s2 := Advance(s1, |s1.out|);
      DrainedDead(s1);
      if k > 1 {
        SilenceKills(s2, next);
        var s3 := OnTimer(s2, next).0;
        DrainedDead(s3);
        DeadStays(Advance(s3, |s3.out|), OnTimer(s2, next).1, k - 2);
      }
    }
  }

  lemma DrainedDead(s: Session)
    ensures Advance(s, |s.out|).dead == s.dead
  {
  }

  lemma SilenceKills(s: Session, now: nat)
    requires !s.dead && s.cfg.heartbeatMs != 0 && s.timer.started && s.timer.outstanding && !Overwrites(s)
    requires s.timer.sentMs + s.cfg.keepaliveTimeoutMs == now < U64_LIMIT
    ensures OnTimer(s, now).0.dead
  {
  }

  /** Dead-peer detection, exactly: driven at its own deadlines against a silent peer, a session that has
      not started its timer is dead after `k` calls if and only if there were three of them and the timeout
      is set and no longer than the heartbeat. */
  lemma DeadPeerDetectedExactly(s: Session, now: nat, k: nat)
    requires !s.dead && s.cfg.heartbeatMs != 0 && !s.timer.started && !s.timer.outstanding && RoomToPing(s)
    requires now + (k + 1) * s.cfg.heartbeatMs + s.cfg.keepaliveTimeoutMs < U64_LIMIT
    ensures Ticks(s, now, k).dead <==> k >= 3 && 0 < s.cfg.keepaliveTimeoutMs <= s.cfg.heartbeatMs
  {
    hide OnTimer, Advance, Due, RoomToPing;
    if k > 0 {
      assert (k + 1) * s.cfg.heartbeatMs == k * s.cfg.heartbeatMs + s.cfg.heartbeatMs;
      TimerStarts(s, now);
      var (s1, next) := OnTimer(s, now);
      var s2 := Advance(s1, |s1.out|);
      if Overwrites(s) {
        NeverDetected(s2, next, k - 1);
      } else if k > 1 {
        TwoBeats(k, s.cfg.heartbeatMs);
        Detected(s2, next, k - 1);
      }
    }
  }

  /** The timeout a configuration gets by default, three heartbeats, never detects a silent peer: however long
      a new session is driven, it lives. */
  lemma DefaultNeverDetects(raw: Config, role: Role, now: nat, k: nat)
    requires New(raw, role).Some? && raw.keepaliveTimeoutMs == 0 && 0 < 3 * raw.heartbeatMs < U32_LIMIT
    requires role.Dialer? || raw.maxOutBuffer == 0 || raw.maxOutBuffer >= HEADER_SIZE + 8
    requires now + (k + 4) * raw.heartbeatMs < U64_LIMIT
    ensures !Ticks(New(raw, role).value, now, k).dead
  {
    hide Ticks, New;
    var s := New(raw, role).value;
    NewSession(raw, role);
    assert (k + 4) * raw.heartbeatMs == (k + 1) * raw.heartbeatMs + 3 * raw.heartbeatMs;
    DeadPeerDetectedExactly(s, now, k);
  }

  lemma NewSession(raw: Config, role: Role)
    requires New(raw, role).Some? && raw.keepaliveTimeoutMs == 0 && 0 < 3 * raw.heartbeatMs < U32_LIMIT
    requires role.Dialer? || raw.maxOutBuffer == 0 || raw.maxOutBuffer >= HEADER_SIZE + 8
    ensures var s := New(raw, role).value;
            && !s.dead && !s.timer.started && !s.timer.outstanding && RoomToPing(s)
            && s.cfg.heartbeatMs == raw.heartbeatMs && s.cfg.keepaliveTimeoutMs == 3 * raw.heartbeatMs
  {
    hide Encode, HelloPayload;
    HelloPayloadBound(raw);
    HelloPayloadBound(Resolve(raw));
  }

  lemma TimerStarts(s: Session, now: nat)
    requires !s.dead && s.cfg.heartbeatMs != 0 && !s.timer.started && !s.timer.outstanding && RoomToPing(s)
    requires now + s.cfg.heartbeatMs < U64_LIMIT
    ensures var (s1, next) := OnTimer(s, now);
            var s2 := Advance(s1, |s1.out|);
            next == now + s.cfg.heartbeatMs && s2.cfg == s.cfg && Due(s2, next) && !s2.timer.outstanding && !s2.dead
  {
  }

  lemma TwoBeats(k: nat, h: nat)
    requires k > 1
    ensures k * h >= 2 * h
  {
  }
}
