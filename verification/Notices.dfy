/** What a session tells its peer besides bytes: streams opened and their metadata, capacity, leaving, the codes of
    resets, pings and their answers. On the sender's side every such frame says what the host had it say; on the
    receiver's every such event says what a frame said. Neither depends on the peer's good will. */
module Notices {
  import opened Wire
  import opened Codec
  import opened Session
  import opened Trace
  import opened Node
  import opened NodeReceive
  import opened NodeRuns
  import opened HostWake
  import opened Keepalive
  import opened Emitting

  // ---------------------------------------------------------------- what frames say

  function NoticeOf(f: Frame): seq<Event> {
    if IsSyn(f) then [StreamOpened(f.sid, f.payload)]
    else if f.typ == T_CAPACITY && |f.payload| == 4 then [Capacity(Get32(f.payload, 0))]
    else if f.typ == T_GOAWAY && |f.payload| >= 8 then [GoAway(Get32(f.payload, 0), Get32(f.payload, 4))]
    else []
  }

  function Said(fs: seq<Frame>): seq<Event> {
    if fs == [] then [] else Said(fs[..|fs| - 1]) + NoticeOf(fs[|fs| - 1])
  }

  /** The payloads of the frames of one kind. */
  function Payloads(fs: seq<Frame>, k: Kind): seq<seq<Byte>> {
    if fs == [] then []
    else Payloads(fs[..|fs| - 1], k) + if KindOf(fs[|fs| - 1]) == k then [fs[|fs| - 1].payload] else []
  }

  lemma SaidMore(fs: seq<Frame>, f: Frame)
    ensures Said(fs + [f]) == Said(fs) + NoticeOf(f)
    ensures forall k :: Payloads(fs + [f], k) == Payloads(fs, k) + if KindOf(f) == k then [f.payload] else []
  {
    hide NoticeOf, KindOf;
    assert (fs + [f])[..|fs|] == fs;
  }

  lemma {:induction false} SaidPrefix(a: seq<Frame>, b: seq<Frame>)
    requires a <= b
    ensures Said(a) <= Said(b) && forall k :: Payloads(a, k) <= Payloads(b, k)
    decreases |b|
  {
    hide NoticeOf, KindOf;
    if |a| < |b| {
      var p := b[..|b| - 1];
      SaidPrefix(a, p);
      SaidMore(p, b[|b| - 1]);
      assert b == p + [b[|b| - 1]];
    } else {
      assert a == b;
    }
  }

  const NOTICES := {Opening, Weight, Leave, Mixed}

  lemma QuietKind(f: Frame)
    requires KindOf(f) !in NOTICES
    ensures NoticeOf(f) == []
  {
    hide HasAck, Get32;
  }

  /** Frames of other kinds say nothing of the sort. */
  lemma {:induction false} SaidKept(s: Session, s': Session, ks: set<Kind>, j: nat)
    requires Emits(s, s', ks) && |s.wire| <= j <= |s'.wire|
    ensures ks !! NOTICES ==> Said(s'.wire[..j]) == Said(s.wire)
    ensures forall k :: k !in ks ==> Payloads(s'.wire[..j], k) == Payloads(s.wire, k)
    decreases j
  {
    hide NoticeOf, KindOf;
    if j == |s.wire| {
      assert s'.wire[..j] == s.wire;
    } else {
      SaidKept(s, s', ks, j - 1);
      var f := s'.wire[j - 1];
      assert s'.wire[..j] == s'.wire[..j - 1] + [f];
      SaidMore(s'.wire[..j - 1], f);
      if ks !! NOTICES {
        QuietKind(f);
      }
    }
  }

  lemma SaidSame(s: Session, s': Session, ks: set<Kind>)
    requires Emits(s, s', ks)
    ensures ks !! NOTICES ==> Said(s'.wire) == Said(s.wire)
    ensures forall k :: k !in ks ==> Payloads(s'.wire, k) == Payloads(s.wire, k)
  {
    hide KindOf, Said, Payloads;
    SaidKept(s, s', ks, |s'.wire|);
    assert s'.wire[..|s'.wire|] == s'.wire;
  }

  // ---------------------------------------------------------------- what the host had told

  /** Openings, capacity and leaving: everything on the wire is what the host asked for, in that order. */
  ghost predicate ToldOk(n: Node) { Said(n.s.wire) == n.told }

  lemma OpenTold(n: Node, meta: seq<Byte>)
    requires ToldOk(n)
    ensures ToldOk(DoOpen(n, meta))
  {
    hide Said, Encode, GrowTo, HasSyn;
    if |meta| <= MAX_META {
      FlagFacts();
      SaidMore(n.s.wire, SynFrame(n.s.nextSid, meta));
    }
  }

  lemma CapacityTold(n: Node, w: U32)
    requires ToldOk(n)
    ensures ToldOk(DoCapacity(n, w))
  {
    hide Said, Encode, GrowTo;
    Word32RoundTrip([], w, []);
    assert [] + Put32(w) + [] == Put32(w);
    SaidMore(n.s.wire, Frame(T_CAPACITY, 0, SID_CONTROL, Put32(w)));
  }

  lemma GoAwayTold(n: Node, reason: U32)
    requires ToldOk(n)
    ensures ToldOk(DoGoAway(n, reason))
  {
    hide Said, Encode, GrowTo;
    var p := Put32(reason) + Put32(n.s.maxRemote);
    Word32RoundTrip([], reason, Put32(n.s.maxRemote));
    Word32RoundTrip(Put32(reason), n.s.maxRemote, []);
    assert [] + Put32(reason) + Put32(n.s.maxRemote) == p && p + [] == p;
    SaidMore(n.s.wire, Frame(T_GOAWAY, 0, SID_CONTROL, p));
  }

  predicate Tells(c: Call) { c.CallOpen? || c.CallCapacity? || c.CallGoAway? }

  lemma CallToldSame(n: Node, c: Call)
    requires !Tells(c)
    ensures Do(n, c).told == n.told
  {
    hide OpenStream, WriteStream, CloseStream, ResetStream, Consume, SendCapacity, SendGoAway, OnTimer, Advance,
        PopEvent;
  }

  lemma StepTold(n: Node, st: Step)
    requires GoodConfig(n.s.cfg) && ToldOk(n)
    ensures ToldOk(Next(n, st))
  {
    hide DoOpen, DoWrite, DoClose, DoReset, DoConsume, DoCapacity, DoGoAway, DoTimer, DoAdvance, DoPop, Process, Said,
      Emits, KindOf;
    if st.HostCall? && Tells(st.c) {
      CallTold(n, st.c);
    } else {
      StepEmits(n, st);
      SaidSame(n.s, Next(n, st).s, Utters(st));
      if st.HostCall? {
        CallToldSame(n, st.c);
      }
    }
  }

  lemma CallTold(n: Node, c: Call)
    requires ToldOk(n) && Tells(c)
    ensures ToldOk(Do(n, c))
  {
    hide DoOpen, DoWrite, DoClose, DoReset, DoConsume, DoCapacity, DoGoAway, DoTimer, DoAdvance, DoPop, ToldOk;
    match c
    case CallOpen(meta) => OpenTold(n, meta);
    case CallCapacity(w) => CapacityTold(n, w);
    case CallGoAway(reason) => GoAwayTold(n, reason);
  }

  // ---------------------------------------------------------------- codes of resets

  function CodeOf(f: Frame): U32 { if |f.payload| >= 4 then Get32(f.payload, 0) else CODE_NO_ERROR }

  /** The codes with which a session resets a stream by itself. */
  const OWN_CODES: set<U32> := {CODE_REFUSED, CODE_PROTOCOL, CODE_FLOW_CONTROL}

  /** A reset on the wire carries the code the host gave for the stream, if it was the host that reset it. */
  predicate CutOk(n: Node, f: Frame) {
    KindOf(f) == Abort ==> if f.sid in n.cuts then CodeOf(f) == n.cuts[f.sid] else CodeOf(f) in OWN_CODES
  }

  /** A stream its host has reset is over. */
  ghost predicate CutsOk(n: Node) {
    && (forall f :: f in n.s.wire ==> CutOk(n, f))
    && forall sid :: sid in n.cuts ==> Used(n, sid) && sid !in n.s.streams && sid != SID_CONTROL
  }

  lemma RstCode(sid: Sid, code: U32)
    ensures CodeOf(RstFrame(sid, code)) == code && KindOf(RstFrame(sid, code)) == Abort
            && RstFrame(sid, code).sid == sid
  {
    Word32RoundTrip([], code, []);
    assert [] + Put32(code) + [] == Put32(code);
    FlagFacts();
  }

  /** Streams once cut stay over. */
  lemma CutStays(n: Node, st: Step, sid: Sid)
    requires Inv(n) && GoodConfig(n.s.cfg) && Enabled(n, st) && Used(n, sid) && sid !in n.s.streams
    ensures Used(Next(n, st), sid) && sid !in Next(n, st).s.streams
  {
    hide Inv, Next, Used;
    NoRevival(n, st, sid);
  }

  /** A session emits a reset of its own for a stream it knows, or has not known before. */
  ghost predicate OwnResets(n: Node, s': Session) {
    && n.s.wire <= s'.wire
    && forall k :: |n.s.wire| <= k < |s'.wire| && KindOf(s'.wire[k]) == Abort ==>
         var f := s'.wire[k];
         CodeOf(f) in OWN_CODES && (f.sid in n.s.streams || !Used(n, f.sid))
  }

  lemma RefusalOwn(n: Node, f: Frame)
    requires !SynIllegal(n.s, f) && IsSyn(f)
    ensures !Used(n, f.sid)
  {
  }

  lemma SynResets(n: Node, f: Frame)
    requires IsSyn(f)
    ensures OwnResets(n, OnSyn(n.s, f))
  {
    hide Encode, GrowTo, KindOf, CodeOf, Used, SynIllegal;
    RstCode(f.sid, CODE_REFUSED);
    if !SynIllegal(n.s, f) {
      RefusalOwn(n, f);
    }
  }

  lemma AbortResets(n: Node, sid: Sid, code: U32)
    requires sid in n.s.streams && code in OWN_CODES
    ensures OwnResets(n, AbortStream(n.s, sid, code))
  {
    hide Encode, GrowTo, KindOf, CodeOf, Used;
    RstCode(sid, code);
  }

  lemma DataResets(n: Node, f: Frame)
    ensures OwnResets(n, OnStreamData(n.s, f))
  {
    hide AbortStream, KindOf, CodeOf, Used, HasFin, HasRst, Get32;
    if f.sid in n.s.streams {
      AbortResets(n, f.sid, CODE_PROTOCOL);
      AbortResets(n, f.sid, CODE_FLOW_CONTROL);
    }
  }

  lemma NoAborts(n: Node, s': Session, ks: set<Kind>)
    requires Emits(n.s, s', ks) && Abort !in ks
    ensures OwnResets(n, s')
  {
    hide KindOf, CodeOf, Used;
  }

  lemma ProcessResets(n: Node, f: Frame, order: seq<Sid>)
    requires GoodConfig(n.s.cfg)
    ensures OwnResets(n, Process(n.s, f, order))
  {
    hide OnSyn, OnStreamData, OnWindowUpdate, OnPing, OnGoAway, OnCapacity, OnHello, HasSyn, HasFin, HasRst, HasAck,
      Used, CodeOf, Emits;
    if f.typ == T_DATA {
      if IsSyn(f) {
        SynResets(n, f);
      }
      DataResets(n, f);
    } else {
      ProcessEmits(n.s, f, order);
      NoAborts(n, Process(n.s, f, order), Replies(f));
    }
  }

  lemma ReceiveCuts(n: Node, f: Frame, order: seq<Sid>)
    requires Inv(n) && GoodConfig(n.s.cfg) && CutsOk(n) && Enumerates(order, n.s.streams.Keys)
    ensures CutsOk(Receive(n, f, order))
  {
    hide Inv, Process, KindOf, CodeOf, Used, Enumerates;
    var n' := Receive(n, f, order);
    ProcessResets(n, f, order);
    forall g | g in n'.s.wire ensures CutOk(n', g) {
      var k :| 0 <= k < |n'.s.wire| && n'.s.wire[k] == g;
      assert k < |n.s.wire| ==> g == n.s.wire[k] && g in n.s.wire;
    }
    forall sid | sid in n'.cuts ensures Used(n', sid) && sid !in n'.s.streams {
      CutStays(n, PeerFrame(f, order), sid);
    }
  }

  lemma ResetCuts(n: Node, sid: Sid, code: U32)
    requires Inv(n) && GoodConfig(n.s.cfg) && CutsOk(n)
    ensures CutsOk(DoReset(n, sid, code))
  {
    hide Inv, KindOf, CodeOf, Encode, GrowTo, Used;
    var n' := DoReset(n, sid, code);
    RstCode(sid, code);
    ResetUsed(n, sid, code);
    if !n.s.dead && sid in n.s.streams {
      LiveKnown(n, sid);
      forall g | g in n'.s.wire ensures CutOk(n', g) {
        if g != RstFrame(sid, code) {
          assert g in n.s.wire && CutOk(n, g);
          if g.sid == sid {
            OneReset(n, sid, g);
          }
        }
      }
    }
  }

  lemma ResetUsed(n: Node, sid: Sid, code: U32)
    ensures forall x: Sid :: Used(n, x) ==> Used(DoReset(n, sid, code), x)
  {
    hide Encode, GrowTo;
  }

  lemma LiveKnown(n: Node, sid: Sid)
    requires Inv(n) && sid in n.s.streams
    ensures Used(n, sid) && sid != SID_CONTROL
  {
    hide SessOk, WireOk, EncodeAll, Tr, Hear;
    assert SidOk(n, sid);
  }

  /** There is no reset yet on the wire for a live stream. */
  lemma OneReset(n: Node, sid: Sid, g: Frame)
    requires Inv(n) && sid in n.s.streams && g in n.s.wire && g.sid == sid
    ensures KindOf(g) != Abort
  {
    hide SessOk, WireOk, EncodeAll, Tr, Hear, HasAck;
    assert SidOk(n, sid);
    if KindOf(g) == Abort {
      RstNoted(n.s.wire, g, sid);
    }
  }

  lemma {:induction false} RstNoted(w: seq<Frame>, g: Frame, sid: Sid)
    requires g in w && g.sid == sid && IsRst(g) && !IsSyn(g)
    ensures Tr(w, sid).rst
    decreases |w|
  {
    hide HasFin, Get32;
    var p, f := w[..|w| - 1], w[|w| - 1];
    if f != g {
      assert g in p;
      RstNoted(p, g, sid);
    }
  }

  lemma CallCuts(n: Node, c: Call)
    requires Inv(n) && GoodConfig(n.s.cfg) && CutsOk(n) && Enabled(n, HostCall(c)) && !c.CallReset?
    ensures CutsOk(Do(n, c))
  {
    hide Inv, Do, KindOf, CodeOf, Used, Emits;
    var n' := Do(n, c);
    CallEmits(n, c);
    NoAborts(n, n'.s, Saying(c));
    CutsSame(n, c);
    forall g | g in n'.s.wire ensures CutOk(n', g) {
      var k :| 0 <= k < |n'.s.wire| && n'.s.wire[k] == g;
      assert k < |n.s.wire| ==> g == n.s.wire[k] && g in n.s.wire;
      if k >= |n.s.wire| {
        NewKind(n.s, n'.s, Saying(c), k);
      }
    }
    forall sid | sid in n'.cuts ensures Used(n', sid) && sid !in n'.s.streams {
      CutStays(n, HostCall(c), sid);
    }
  }

  lemma NewKind(s: Session, s': Session, ks: set<Kind>, k: nat)
    requires Emits(s, s', ks) && |s.wire| <= k < |s'.wire|
    ensures KindOf(s'.wire[k]) in ks
  {
    hide KindOf;
  }

  lemma CutsSame(n: Node, c: Call)
    requires !c.CallReset?
    ensures Do(n, c).cuts == n.cuts
  {
    hide OpenStream, WriteStream, CloseStream, ResetStream, Consume, SendCapacity, SendGoAway, OnTimer, Advance,
        PopEvent;
  }

  lemma StepCuts(n: Node, st: Step)
    requires Inv(n) && GoodConfig(n.s.cfg) && CutsOk(n) && Enabled(n, st)
    ensures CutsOk(Next(n, st))
  {
    hide Inv, DoOpen, DoWrite, DoClose, DoReset, DoConsume, DoCapacity, DoGoAway, DoTimer, DoAdvance, DoPop, Receive,
      CutsOk, Enumerates;
    match st
    case HostCall(CallReset(sid, code)) => ResetCuts(n, sid, code);
    case HostCall(c) => CallCuts(n, c);
    case PeerFrame(f, order) => ReceiveCuts(n, f, order);
    case PeerGarbage => GarbageCuts(n);
  }

  lemma GarbageCuts(n: Node)
    requires CutsOk(n)
    ensures CutsOk(n.(s := RaiseFatal(n.s, CODE_PROTOCOL)))
  {
    hide KindOf, CodeOf;
  }

  // ---------------------------------------------------------------- pings

  /** Pings go out numbered from 0, and each ping taken was answered with its own payload, in order. */
  ghost predicate PingsOk(n: Node) {
    var sent := Payloads(n.s.wire, Ping);
    && n.s.timer.nonce == |sent| % U64_LIMIT
    && (forall i :: 0 <= i < |sent| ==> sent[i] == PingFrame(i % U64_LIMIT).payload)
    && Payloads(n.s.wire, Answer) == Payloads(n.rcvd, Ping)
  }

  lemma TimerPings(n: Node, now: nat)
    requires PingsOk(n)
    ensures PingsOk(DoTimer(n, now))
  {
    hide Payloads, PingFrame, KindOf, DoTimer;
    var n', f := DoTimer(n, now), PingFrame(n.s.timer.nonce);
    TimerShape(n, now);
    PingKind(n.s.timer.nonce);
    SaidMore(n.s.wire, f);
    NextNumber(|Payloads(n.s.wire, Ping)|);
  }

  lemma TimerShape(n: Node, now: nat)
    ensures var n', f := DoTimer(n, now), PingFrame(n.s.timer.nonce);
            && n'.rcvd == n.rcvd
            && if n'.s.wire == n.s.wire then n'.s.timer.nonce == n.s.timer.nonce
               else n'.s.wire == n.s.wire + [f] && n'.s.timer.nonce == (n.s.timer.nonce + 1) % U64_LIMIT
  {
    hide PingFrame, PeerSilent, NextDeadline, Encode, GrowTo;
  }

  lemma NextNumber(k: nat)
    ensures (k % U64_LIMIT + 1) % U64_LIMIT == (k + 1) % U64_LIMIT
  {
  }

  lemma PingAnswered(n: Node, f: Frame, order: seq<Sid>)
    requires GoodConfig(n.s.cfg) && !n.s.dead && KindOf(f) == Ping && PingsOk(n)
    ensures PingsOk(Receive(n, f, order))
  {
    hide Payloads, PingFrame, Receive, KindOf;
    var g := Frame(T_PING, F_ACK, SID_CONTROL, f.payload);
    AnswerShape(n, f, order);
    Kinds(n.s, 0, 0, f.payload);
    SaidMore(n.s.wire, g);
    SaidMore(n.rcvd, f);
  }

  lemma AnswerShape(n: Node, f: Frame, order: seq<Sid>)
    requires GoodConfig(n.s.cfg) && !n.s.dead && KindOf(f) == Ping
    ensures var n' := Receive(n, f, order);
            && n'.s.timer == n.s.timer
            && if n'.s.dead then n'.s.wire == n.s.wire && n'.rcvd == n.rcvd
               else n'.s.wire == n.s.wire + [Frame(T_PING, F_ACK, SID_CONTROL, f.payload)] && n'.rcvd == n.rcvd + [f]
  {
    hide Emitted, HasSyn, HasFin, HasRst, OnSyn, OnStreamData, OnWindowUpdate, OnGoAway, OnHello, OnCapacity;
    assert f.typ == T_PING && !HasAck(f.flags);
    EmittedFields(n.s, Frame(T_PING, F_ACK, SID_CONTROL, f.payload));
  }

  lemma EmittedFields(s: Session, f: Frame)
    ensures Emitted(s, f).timer == s.timer && Emitted(s, f).wire == s.wire + [f] && Emitted(s, f).dead == s.dead
            && Emitted(s, f).events == s.events
  {
  }

  lemma SameTimer(n: Node, n': Node)
    requires PingsOk(n) && n'.s.timer.nonce == n.s.timer.nonce
    requires Payloads(n'.s.wire, Ping) == Payloads(n.s.wire, Ping)
    requires Payloads(n'.s.wire, Answer) == Payloads(n.s.wire, Answer)
    requires Payloads(n'.rcvd, Ping) == Payloads(n.rcvd, Ping)
    ensures PingsOk(n')
  {
    hide Payloads, PingFrame;
  }

  lemma CallPings(n: Node, c: Call)
    requires PingsOk(n) && !c.CallTimer?
    ensures PingsOk(Do(n, c))
  {
    hide Do, Payloads, PingFrame, Emits, KindOf;
    CallEmits(n, c);
    SaidSame(n.s, Do(n, c).s, Saying(c));
    OtherCallTimer(n, c);
    CallHistory(n, c);
    SameTimer(n, Do(n, c));
  }

  lemma CallHistory(n: Node, c: Call)
    ensures Do(n, c).rcvd == n.rcvd && Do(n, c).peer == n.peer
  {
    hide OpenStream, WriteStream, CloseStream, ResetStream, Consume, SendCapacity, SendGoAway, OnTimer, Advance,
        PopEvent;
  }

  lemma OtherFramePings(n: Node, f: Frame, order: seq<Sid>)
    requires GoodConfig(n.s.cfg) && PingsOk(n) && (n.s.dead || KindOf(f) != Ping)
    ensures PingsOk(Receive(n, f, order))
  {
    hide Process, Payloads, PingFrame, Emits, KindOf;
    var n' := Receive(n, f, order);
    if !n.s.dead {
      ProcessEmits(n.s, f, order);
      SaidSame(n.s, n'.s, Replies(f));
      ReceiveTimer(n, f, order);
      SaidMore(n.rcvd, f);
      SameTimer(n, n');
    }
  }

  lemma StepPings(n: Node, st: Step)
    requires GoodConfig(n.s.cfg) && PingsOk(n)
    ensures PingsOk(Next(n, st))
  {
    hide DoOpen, DoWrite, DoClose, DoReset, DoConsume, DoCapacity, DoGoAway, DoTimer, DoAdvance, DoPop, Receive,
      PingsOk, KindOf;
    match st
    case HostCall(c) =>
      if c.CallTimer? {
        TimerPings(n, c.now);
      } else {
        CallPings(n, c);
      }
    case PeerFrame(f, order) =>
      if !n.s.dead && KindOf(f) == Ping {
        PingAnswered(n, f, order);
      } else {
        OtherFramePings(n, f, order);
      }
    case PeerGarbage => GarbagePings(n);
  }

  lemma GarbagePings(n: Node)
    requires PingsOk(n)
    ensures PingsOk(n.(s := RaiseFatal(n.s, CODE_PROTOCOL)))
  {
    hide Payloads, PingFrame;
  }

  // ---------------------------------------------------------------- what the host is told

  /** Where an event can come from, when frame `f` is processed in session `s`. */
  predicate From(s: Session, f: Frame, e: Event) {
    match e
    case StreamOpened(sid, meta) => IsSyn(f) && sid == f.sid && meta == f.payload
    case StreamReset(sid, code) => code == CODE_NO_ERROR || (KindOf(f) == Abort && sid == f.sid && code == CodeOf(f))
    case Capacity(_) => NoticeOf(f) == [e]
    case GoAway(_, _) => NoticeOf(f) == [e]
    case PeerHello(info) =>
      !s.helloSeen && info == ReadTlvs(Params(s.peerMax, s.peerInit, s.sendWin, NO_INFO), f.payload, 0).0.info
    case _ => true
  }

  /** An event that repeats what a frame said. */
  predicate Worded(e: Event) {
    e.StreamOpened? || e.Capacity? || e.GoAway? || (e.StreamReset? && e.code != CODE_NO_ERROR)
  }

  /** The events that come in order: capacity and leaving. */
  predicate Orderly(e: Event) { e.Capacity? || e.GoAway? }

  ghost predicate Reports(s: Session, f: Frame, s': Session) {
    && s.events <= s'.events
    && (forall k :: |s.events| <= k < |s'.events| ==>
          && From(s, f, s'.events[k]) && (Worded(s'.events[k]) ==> !s'.dead) && !Orderly(s'.events[k])
          && (s'.events[k].PeerHello? ==> s'.helloSeen))
  }

  lemma SynReports(s: Session, f: Frame)
    requires IsSyn(f) && !s.dead
    ensures Reports(s, f, OnSyn(s, f))
  {
    hide Emit, Admit, From, SynIllegal, Refuses, HasFin, HasRst, Reports;
    FatalReports(s, f, CODE_PROTOCOL);
    EmitReports(s, f, RstFrame(f.sid, CODE_REFUSED));
    var s1 := Emit(s, RstFrame(f.sid, CODE_REFUSED)).0;
    ReportsAs(s, f, s1, s1.(maxRemote := f.sid));
    AdmitReports(s, f);
  }

  lemma ReportsAs(s: Session, f: Frame, s1: Session, s2: Session)
    requires Reports(s, f, s1) && s2.events == s1.events && s2.dead == s1.dead && s2.helloSeen == s1.helloSeen
    ensures Reports(s, f, s2)
  {
    hide From;
  }

  lemma EmitReports(s: Session, f: Frame, g: Frame)
    requires !s.dead
    ensures Reports(s, f, Emit(s, g).0)
  {
    hide Encode, GrowTo, ReadTlvs, NoticeOf;
  }

  lemma AdmitReports(s: Session, f: Frame)
    requires IsSyn(f) && !s.dead
    ensures var s1 := Admit(s, f);
            && f.sid in s1.streams && Reports(s, f, s1)
            && Reports(s, f, Remove(Queue(s1, StreamReset(f.sid, CODE_NO_ERROR)), f.sid))
            && Reports(s, f, Queue(s1.(streams := s1.streams[f.sid := s1.streams[f.sid].(life := HalfRemote)]),
                                   StreamClosed(f.sid)))
  {
    hide NoticeOf, CodeOf, KindOf, HasSyn, ReadTlvs;
  }

  lemma AbortReports(s: Session, f: Frame, sid: Sid, code: U32)
    requires sid in s.streams && !s.dead
    ensures Reports(s, f, AbortStream(s, sid, code))
  {
    hide Encode, GrowTo, KindOf, NoticeOf, CodeOf, ReadTlvs;
  }

  lemma DataReports(s: Session, f: Frame)
    requires f.typ == T_DATA && !IsSyn(f) && !s.dead
    ensures Reports(s, f, OnStreamData(s, f))
  {
    hide AbortStream, HasFin, HasRst, Get32, Reports, TakeData, TakeFin, Remove;
    FatalReports(s, f, CODE_PROTOCOL);
    FatalReports(s, f, CODE_FLOW_CONTROL);
    if f.sid in s.streams {
      AbortReports(s, f, f.sid, CODE_PROTOCOL);
      AbortReports(s, f, f.sid, CODE_FLOW_CONTROL);
      TakenReports(s, f);
      if HasRst(f.flags) {
        ResetReports(s, f);
      }
    }
  }

  lemma ResetReports(s: Session, f: Frame)
    requires IsRst(f) && !IsSyn(f) && !s.dead && f.sid in s.streams
    ensures var code := if |f.payload| >= 4 then Get32(f.payload, 0) else CODE_NO_ERROR;
            Reports(s, f, Remove(Queue(s, StreamReset(f.sid, code)), f.sid))
  {
    hide NoticeOf, ReadTlvs, HasFin, HasAck, Get32;
  }

  lemma TakenReports(s: Session, f: Frame)
    requires !s.dead && f.sid in s.streams
    ensures var s1 := if |f.payload| > 0 then TakeData(s, f) else s;
            Reports(s, f, s1) && f.sid in s1.streams && Reports(s, f, TakeFin(s1, f.sid))
  {
    hide NoticeOf, ReadTlvs, KindOf, CodeOf;
  }

  lemma CreditReports(s: Session, f: Frame, order: seq<Sid>)
    requires !s.dead
    ensures Reports(s, f, OnWindowUpdate(s, f, order))
  {
    hide OnStreamCredit, OnSessionCredit, Get32, Reports;
    FatalReports(s, f, CODE_PROTOCOL);
    if |f.payload| == 4 {
      StreamCreditReports(s, f, f.sid, Get32(f.payload, 0));
      SessionCreditReports(s, f, Get32(f.payload, 0), order);
    }
  }

  lemma StreamCreditReports(s: Session, f: Frame, sid: Sid, credit: U32)
    requires !s.dead
    ensures Reports(s, f, OnStreamCredit(s, sid, credit))
  {
    hide NoticeOf, ReadTlvs, KindOf, CodeOf;
  }

  lemma SessionCreditReports(s: Session, f: Frame, credit: U32, order: seq<Sid>)
    requires !s.dead
    ensures Reports(s, f, OnSessionCredit(s, credit, order))
  {
    hide Sweep, NoticeOf, ReadTlvs, KindOf, CodeOf;
    var s1 := s.(sendWin := s.sendWin + credit);
    var es := SweepSwept(s1, order);
    var s2 := Sweep(s1, order);
    forall k | |s.events| <= k < |s2.events| ensures s2.events[k].Writable? {
      assert s2.events[k] == es[k - |s.events|];
    }
  }

  lemma PingReports(s: Session, f: Frame)
    requires !s.dead
    ensures Reports(s, f, OnPing(s, f))
  {
    hide Encode, GrowTo, NoticeOf, ReadTlvs, KindOf, CodeOf, HasAck;
  }

  lemma HelloReports(s: Session, f: Frame, ack: bool)
    requires GoodConfig(s.cfg) && !s.dead
    ensures Reports(s, f, OnHello(s, f, ack))
  {
    hide Encode, GrowTo, NoticeOf, ReadTlvs, KindOf, CodeOf, HelloPayload;
  }

  lemma FatalReports(s: Session, f: Frame, code: U32)
    requires !s.dead
    ensures Reports(s, f, RaiseFatal(s, code)) && Reports(s, f, s)
  {
    hide NoticeOf, ReadTlvs, KindOf, CodeOf;
  }

  /** Frames that are no notice. */
  lemma ProcessReports(s: Session, f: Frame, order: seq<Sid>)
    requires GoodConfig(s.cfg) && !s.dead && f.typ != T_GOAWAY && f.typ != T_CAPACITY
    ensures Reports(s, f, Process(s, f, order))
  {
    hide OnSyn, OnStreamData, OnWindowUpdate, OnPing, OnGoAway, OnCapacity, OnHello, HasSyn, Reports;
    FatalReports(s, f, CODE_PROTOCOL);
    if f.typ == T_DATA {
      if IsSyn(f) {
        SynReports(s, f);
      } else {
        DataReports(s, f);
      }
    } else {
      CreditReports(s, f, order);
      PingReports(s, f);
      HelloReports(s, f, true);
      HelloReports(s, f, false);
    }
  }

  /** Capacity and leaving are reported as they are, or kill the session. */
  lemma NoticeReports(s: Session, f: Frame, order: seq<Sid>)
    requires GoodConfig(s.cfg) && !s.dead && (f.typ == T_GOAWAY || f.typ == T_CAPACITY)
    ensures var s' := Process(s, f, order);
            if s'.dead then s'.events == s.events + [Fatal(CODE_PROTOCOL)]
            else s'.events == s.events + NoticeOf(f) && |NoticeOf(f)| == 1 && Orderly(NoticeOf(f)[0])
  {
    hide Get32, HasSyn, HasFin, HasRst, HasAck, OnHello, OnWindowUpdate, OnSyn, OnStreamData;
  }

  // ---------------------------------------------------------------- the log

  /** An event in the log repeats what a frame that was processed said. */
  predicate Backed(n: Node, e: Event) {
    match e
    case StreamOpened(_, _) => e in Said(n.rcvd)
    case Capacity(_) => e in Said(n.rcvd)
    case GoAway(_, _) => e in Said(n.rcvd)
    case StreamReset(sid, code) =>
      code == CODE_NO_ERROR || exists f :: f in n.rcvd && KindOf(f) == Abort && f.sid == sid && CodeOf(f) == code
    case PeerHello(info) => n.s.helloSeen && (n.rcvd != [] ==> info == n.peer.info)
    case _ => true
  }

  function Heeds(es: seq<Event>): seq<Event> {
    if es == [] then [] else Heeds(es[..|es| - 1]) + if Orderly(es[|es| - 1]) then [es[|es| - 1]] else []
  }

  lemma HeedsMore(es: seq<Event>, e: Event)
    ensures Heeds(es + [e]) == Heeds(es) + if Orderly(e) then [e] else []
  {
    assert (es + [e])[..|es|] == es;
  }

  lemma {:induction false} HeedsNone(log: seq<Event>, es: seq<Event>)
    requires forall k :: 0 <= k < |es| ==> !Orderly(es[k])
    ensures Heeds(log + es) == Heeds(log)
    decreases |es|
  {
    hide Orderly;
    if es == [] {
      assert log + es == log;
    } else {
      var p := es[..|es| - 1];
      HeedsNone(log, p);
      HeedsMore(log + p, es[|es| - 1]);
      assert log + es == log + p + [es[|es| - 1]];
    }
  }

  lemma {:induction false} HeedsPrefix(a: seq<Event>, b: seq<Event>)
    requires a <= b
    ensures Heeds(a) <= Heeds(b)
    decreases |b|
  {
    if |a| < |b| {
      HeedsPrefix(a, b[..|b| - 1]);
      HeedsMore(b[..|b| - 1], b[|b| - 1]);
      assert b == b[..|b| - 1] + [b[|b| - 1]];
    } else {
      assert a == b;
    }
  }

  /** All of capacity and leaving is in the log, in order; and everything the log says was said. */
  ghost predicate ReportsOk(n: Node) {
    (forall e :: e in Log(n) ==> Backed(n, e)) && Heeds(Log(n)) == Heeds(Said(n.rcvd))
  }

  lemma MuteReports(n: Node, n': Node, es: seq<Event>)
    requires ReportsOk(n) && Log(n') == Log(n) + es && n'.rcvd == n.rcvd && n'.peer == n.peer
    requires n.s.helloSeen ==> n'.s.helloSeen
    requires forall e :: e in es ==> e.Fatal?
    ensures ReportsOk(n')
  {
    hide Said, KindOf, CodeOf, Heeds;
    assert forall k :: 0 <= k < |es| ==> es[k] in es;
    HeedsNone(Log(n), es);
    forall e | e in Log(n') ensures Backed(n', e) {
      if e in Log(n) {
        assert Backed(n, e);
      }
    }
  }

  lemma BackedStays(n: Node, n': Node, e: Event)
    requires Backed(n, e) && n.rcvd <= n'.rcvd && (n.rcvd != [] ==> n'.peer == n.peer)
    requires e.PeerHello? ==> n'.s.helloSeen && (n.rcvd != [] || n'.rcvd == [])
    ensures Backed(n', e)
  {
    hide Said, KindOf, CodeOf;
    SaidPrefix(n.rcvd, n'.rcvd);
  }

  lemma NewBacked(n: Node, f: Frame, order: seq<Sid>, e: Event)
    requires Inv(n) && GoodConfig(n.s.cfg) && !n.s.dead && From(n.s, f, e)
    requires Worded(e) ==> !Receive(n, f, order).s.dead
    requires e.PeerHello? ==> Receive(n, f, order).s.helloSeen
    ensures Backed(Receive(n, f, order), e)
  {
    hide Said, KindOf, CodeOf, Process, ReadTlvs, NoticeOf, Inv;
    var n' := Receive(n, f, order);
    SaidMore(n.rcvd, f);
    if e.StreamOpened? {
      assert NoticeOf(f) == [e] by { SynNotice(f); }
    }
    if e.PeerHello? {
      GreetedOnce(n, f, order);
    }
  }

  lemma SynNotice(f: Frame)
    requires IsSyn(f)
    ensures NoticeOf(f) == [StreamOpened(f.sid, f.payload)]
  {
  }

  /** The parameters a first greeting is read with are the defaults. */
  lemma GreetedOnce(n: Node, f: Frame, order: seq<Sid>)
    requires Inv(n) && GoodConfig(n.s.cfg) && !n.s.dead && !n.s.helloSeen
    ensures Params(n.s.peerMax, n.s.peerInit, n.s.sendWin, NO_INFO) == DEFAULT_PARAMS && n.rcvd == []
    ensures var n' := Receive(n, f, order); n'.rcvd != [] ==> n'.peer == HelloParams(f)
  {
    hide FlowOk, SidOk, WireOk, EncodeAll, TotalData, LastSyn, ReadTlvs, Process;
    if !Process(n.s, f, order).dead {
      Survivor(n, f, order);
    }
  }

  lemma Survivor(n: Node, f: Frame, order: seq<Sid>)
    requires GoodConfig(n.s.cfg) && !n.s.dead && !n.s.helloSeen && !Process(n.s, f, order).dead
    ensures Process(n.s, f, order).helloSeen
  {
    hide OnSyn, OnStreamData, OnWindowUpdate, OnPing, OnGoAway, OnCapacity, ReadTlvs, Encode, GrowTo, HelloPayload;
  }

  lemma ReceiveReports(n: Node, f: Frame, order: seq<Sid>)
    requires Inv(n) && GoodConfig(n.s.cfg) && ReportsOk(n)
    ensures ReportsOk(Receive(n, f, order))
  {
    hide Inv, Receive, ReportsOk;
    if n.s.dead {
      DeadReceive(n, f, order);
    } else if f.typ == T_GOAWAY || f.typ == T_CAPACITY {
      NoticeTaken(n, f, order);
    } else {
      OtherTaken(n, f, order);
    }
  }

  lemma DeadReceive(n: Node, f: Frame, order: seq<Sid>)
    requires GoodConfig(n.s.cfg) && n.s.dead
    ensures Receive(n, f, order) == n
  {
  }

  /** What a frame does to the history. */
  lemma ReceiveHistory(n: Node, f: Frame, order: seq<Sid>)
    requires Inv(n) && GoodConfig(n.s.cfg) && !n.s.dead
    ensures var n', s1 := Receive(n, f, order), Process(n.s, f, order);
            && n'.s == s1 && n'.popped == n.popped && n'.rcvd == (if s1.dead then n.rcvd else n.rcvd + [f])
            && (n.rcvd != [] ==> n'.peer == n.peer) && (n.s.helloSeen ==> n'.s.helloSeen)
  {
    hide FlowOk, SidOk, WireOk, EncodeAll, TotalData, LastSyn, ReadTlvs, Process;
    TidyProcess(n.s, f, order);
  }

  lemma OtherTaken(n: Node, f: Frame, order: seq<Sid>)
    requires Inv(n) && GoodConfig(n.s.cfg) && !n.s.dead && ReportsOk(n) && f.typ != T_GOAWAY && f.typ != T_CAPACITY
    ensures ReportsOk(Receive(n, f, order))
  {
    hide Inv, Receive, Process, Said, Heeds, Backed, From, Worded, Orderly;
    var n' := Receive(n, f, order);
    ReceiveHistory(n, f, order);
    ProcessReports(n.s, f, order);
    var es := n'.s.events[|n.s.events|..];
    assert n'.s.events == n.s.events + es && Log(n') == Log(n) + es;
    HeedsNone(Log(n), es);
    SaidMore(n.rcvd, f);
    PlainNotice(Said(n.rcvd), f);
    forall e | e in Log(n') ensures Backed(n', e) {
      if e in es {
        var k :| 0 <= k < |es| && es[k] == e;
        assert e == n'.s.events[|n.s.events| + k];
        NewBacked(n, f, order, e);
      } else {
        assert e in Log(n);
        OldBacked(n, f, order, e);
      }
    }
  }

  lemma PlainNotice(said: seq<Event>, f: Frame)
    requires f.typ != T_GOAWAY && f.typ != T_CAPACITY
    ensures Heeds(said + NoticeOf(f)) == Heeds(said)
  {
    hide Heeds;
    HeedsNone(said, NoticeOf(f));
  }

  lemma OldBacked(n: Node, f: Frame, order: seq<Sid>, e: Event)
    requires Inv(n) && GoodConfig(n.s.cfg) && !n.s.dead && Backed(n, e) && e in Log(n)
    ensures Backed(Receive(n, f, order), e)
  {
    hide Inv, Receive, Process, Backed;
    ReceiveHistory(n, f, order);
    if e.PeerHello? {
      GreetedAlive(n, e);
    }
    BackedStays(n, Receive(n, f, order), e);
  }

  lemma GreetedAlive(n: Node, e: Event)
    requires Inv(n) && !n.s.dead && e.PeerHello? && Backed(n, e)
    ensures n.s.helloSeen && n.rcvd != []
  {
    hide FlowOk, SidOk, WireOk, EncodeAll, TotalData, LastSyn, ReadTlvs;
  }

  lemma NoticeTaken(n: Node, f: Frame, order: seq<Sid>)
    requires Inv(n) && GoodConfig(n.s.cfg) && !n.s.dead && ReportsOk(n) && (f.typ == T_GOAWAY || f.typ == T_CAPACITY)
    ensures ReportsOk(Receive(n, f, order))
  {
    hide Inv, Receive, Process, Said, Heeds, Backed, NoticeOf;
    var n' := Receive(n, f, order);
    ReceiveHistory(n, f, order);
    NoticeReports(n.s, f, order);
    var es := n'.s.events[|n.s.events|..];
    assert n'.s.events == n.s.events + es && Log(n') == Log(n) + es;
    SaidMore(n.rcvd, f);
    if n'.s.dead {
      HeedsNone(Log(n), es);
    } else {
      HeedsMore(Log(n), es[0]);
      HeedsMore(Said(n.rcvd), es[0]);
      assert es == [es[0]] == NoticeOf(f);
    }
    forall e | e in Log(n') ensures Backed(n', e) {
      if e in Log(n) {
        OldBacked(n, f, order, e);
      } else {
        assert e in es && e == es[0];
        NoticeBacked(n', e);
      }
    }
  }

  lemma NoticeBacked(n: Node, e: Event)
    requires e.Fatal? || (Orderly(e) && e in Said(n.rcvd))
    ensures Backed(n, e)
  {
    hide Said;
  }

  // ---------------------------------------------------------------- together

  /** What is said and heard besides bytes is in order. */
  ghost predicate Noted(n: Node) { ToldOk(n) && CutsOk(n) && PingsOk(n) && ReportsOk(n) }

  lemma ReceiveNoted(n: Node, f: Frame, order: seq<Sid>)
    requires Inv(n) && GoodConfig(n.s.cfg) && Noted(n) && Enumerates(order, n.s.streams.Keys)
    ensures Noted(Receive(n, f, order))
  {
    hide Inv, Receive, Enumerates, ToldOk, CutsOk, PingsOk, ReportsOk;
    StepTold(n, PeerFrame(f, order));
    ReceiveCuts(n, f, order);
    StepPings(n, PeerFrame(f, order));
    ReceiveReports(n, f, order);
  }

  lemma StartNoted(s: Session)
    requires s.events == [] && s.timer.nonce == 0 && (s.wire == [] || (|s.wire| == 1 && KindOf(s.wire[0]) == Greeting))
    ensures Noted(Start(s))
  {
    hide HasSyn, HasFin, HasRst, HasAck;
    assert Log(Start(s)) == [];
    if s.wire != [] {
      assert s.wire == [] + [s.wire[0]];
      SaidMore([], s.wire[0]);
    }
  }
}
