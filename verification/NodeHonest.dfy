/** What more holds when the peer keeps the output discipline of Trace.MayFollow: nothing on an id
    before it is opened, no bytes after a FIN, nothing after an RST. */
module NodeHonest {
  import opened Wire
  import opened Codec
  import opened Session
  import opened Trace
  import opened Node
  import opened NodeSteps
  import opened NodeSend
  import opened NodeConsume
  import opened NodeReceive
  import opened NodeControl
  import opened NodeRuns

  function Peer(role: Role): Role { if role.Dialer? then Acceptor else Dialer }

  /** The frames processed so far are those of a disciplined peer that uses no id before it is opened. */
  ghost predicate Disciplined(n: Node) {
    && WireOk(Peer(n.s.role), n.rcvd)
    && forall sid: Sid :: !Used(n, sid) ==> Tr(n.rcvd, sid) == ZERO
  }

  /** The exact state of one stream with respect to what was processed. */
  ghost predicate ExactSid(n: Node, sid: Sid) {
    var w, r, h := Tr(n.s.wire, sid), Tr(n.rcvd, sid), Hear(Log(n), sid);
    && (sid in n.s.streams ==>
          && !r.rst && (r.fin <==> n.s.streams[sid].life.HalfRemote?) && h.data == r.data
          && (!n.s.dead ==> n.s.streams[sid].sendWin + |w.data| == n.s.peerInit + r.credit))
    && h.data <= r.data
    && (h.closed ==> r.fin && h.data == r.data)
    && (!n.s.dead && sid !in n.s.streams && !w.rst && !r.rst ==> h.data == r.data)
  }

  ghost predicate Exact(n: Node) {
    forall sid: Sid :: ExactSid(n, sid)
  }

  // ---------------------------------------------------------------- host calls

  /** A call on existing streams: records may go or half-close, and windows fall by what was written. */
  ghost predicate TxOnly(n: Node, n': Node, es: seq<Event>) {
    && n'.rcvd == n.rcvd && (!n'.s.dead ==> n'.s.peerInit == n.s.peerInit)
    && (n.s.dead ==> n'.s.dead) && n.s.wire <= n'.s.wire
    && Log(n') == Log(n) + es && (forall e :: e in es ==> Mute(e))
    && (forall x :: x in n'.s.streams ==>
          && x in n.s.streams
          && (n'.s.streams[x].life == n.s.streams[x].life
              || (n.s.streams[x].life.Open? && n'.s.streams[x].life.HalfLocal?))
          && (!n'.s.dead ==>
                n'.s.streams[x].sendWin + |Wrote(n', x)| == n.s.streams[x].sendWin + |Wrote(n, x)|))
  }

  lemma TxOnlySid(n: Node, n': Node, es: seq<Event>, x: Sid)
    requires SidOk(n, x) && SidOk(n', x) && ExactSid(n, x) && TxOnly(n, n', es)
    ensures ExactSid(n', x)
  {
    hide Tr, Hear;
    HearMute(Log(n), es, x);
    TrPrefix(n.s.wire, n'.s.wire, x);
  }

  lemma TxOnlyExact(n: Node, n': Node, es: seq<Event>)
    requires Inv(n) && Inv(n') && Exact(n) && TxOnly(n, n', es)
    ensures Exact(n')
  {
    hide SessOk, SidOk, WireOk, EncodeAll, ExactSid, TxOnly;
    forall x: Sid ensures ExactSid(n', x) {
      TxOnlySid(n, n', es, x);
    }
  }

  /** The events of a call that can only die. */
  lemma DyingEvents(n: Node, n': Node) returns (es: seq<Event>)
    requires OnlyDies(n.s, n'.s) && n'.popped == n.popped
    ensures Log(n') == Log(n) + es && forall e :: e in es ==> Mute(e)
  {
    if n'.s.events == n.s.events {
      es := [];
    } else {
      es := [Fatal(CODE_INTERNAL)];
    }
    assert n'.s.events == n.s.events + es;
  }

  lemma WriteOnlyDies(s: Session, sid: Sid, p: seq<Byte>)
    ensures OnlyDies(s, WriteStream(s, sid, p).0)
  {
    hide SendAll;
    if !s.dead && sid in s.streams && !s.streams[sid].life.HalfLocal? {
      var room := Min(s.streams[sid].sendWin, s.sendWin);
      if room > 0 {
        SendAllPostHolds(s, sid, p[..Min(|p|, room)]);
      }
    }
  }

  /** A write moves bytes from the send window to the wire, and touches no other stream. */
  lemma WriteStreams(s: Session, sid: Sid, p: seq<Byte>)
    ensures var (s1, k) := WriteStream(s, sid, p);
            && k <= |p| && s1.streams.Keys == s.streams.Keys && SameBase(s, s1)
            && forall x :: x in s.streams ==>
                 && s1.streams[x].life == s.streams[x].life
                 && s1.streams[x].sendWin == s.streams[x].sendWin - (if x == sid && k > 0 then k else 0)
  {
    hide SendAll;
    if !s.dead && sid in s.streams && !s.streams[sid].life.HalfLocal? {
      var room := Min(s.streams[sid].sendWin, s.sendWin);
      if room > 0 {
        SendAllPostHolds(s, sid, p[..Min(|p|, room)]);
      }
    }
  }

  lemma WriteExact(n: Node, sid: Sid, p: seq<Byte>)
    requires Inv(n) && Exact(n)
    ensures Exact(DoWrite(n, sid, p))
  {
    hide Inv, Exact, WriteStream, Tidy;
    var n' := DoWrite(n, sid, p);
    WriteInv(n, sid, p);
    WriteOnlyDies(n.s, sid, p);
    var es := DyingEvents(n, n');
    WriteStreams(n.s, sid, p);
    TidyWrite(n.s, sid, p);
    TidyWire(n.s, n'.s);
    TxOnlyExact(n, n', es);
  }

  lemma TidyWire(s: Session, s': Session)
    requires Tidy(s, s')
    ensures s.wire <= s'.wire && (s.dead ==> s'.dead)
  {
  }

  lemma CloseStreams(s: Session, sid: Sid)
    ensures var s1 := CloseStream(s, sid).0;
            && OnlyDies(s, s1) && SameBase(s, s1)
            && forall x :: x in s1.streams ==>
                 && x in s.streams && s1.streams[x].sendWin == s.streams[x].sendWin
                 && (s1.streams[x].life == s.streams[x].life
                     || (s.streams[x].life.Open? && s1.streams[x].life.HalfLocal?))
  {
    hide Emit;
    EmitKeeps(s, FinFrame(sid));
  }

  lemma CloseExact(n: Node, sid: Sid)
    requires Inv(n) && Exact(n)
    ensures Exact(DoClose(n, sid))
  {
    hide Inv, Exact, Tidy, CloseStream;
    var n' := DoClose(n, sid);
    CloseInv(n, sid);
    CloseStreams(n.s, sid);
    var es := DyingEvents(n, n');
    TidyClose(n.s, sid);
    TidyWire(n.s, n'.s);
    TxOnlyExact(n, n', es);
  }

  lemma ResetExact(n: Node, sid: Sid, code: U32)
    requires Inv(n) && Exact(n)
    ensures Exact(DoReset(n, sid, code))
  {
    hide Inv, Exact, Tidy, Encode, GrowTo;
    var n' := DoReset(n, sid, code);
    ResetInv(n, sid, code);
    var es := DyingEvents(n, n');
    TidyReset(n.s, sid, code);
    TidyWire(n.s, n'.s);
    TxOnlyExact(n, n', es);
  }

  lemma ConsumeStreams(s: Session, sid: Sid, k: nat)
    ensures var s1 := Consume(s, sid, k).0;
            && OnlyDies(s, s1) && s1.streams.Keys == s.streams.Keys && SameBase(s, s1)
            && forall x :: x in s.streams ==>
                 s1.streams[x].life == s.streams[x].life && s1.streams[x].sendWin == s.streams[x].sendWin
  {
    hide EmitSessionCredit, EmitStreamCredit;
    var s1 := AddPending(s, k);
    EmitSessionCreditPost(s1);
    var s2 := CreditSession(s1);
    if sid in s2.streams {
      EmitStreamCreditPost(AddStreamPending(s2, sid, k), sid);
    }
  }

  lemma ConsumeExact(n: Node, sid: Sid, k: nat)
    requires Inv(n) && Exact(n)
    ensures Exact(DoConsume(n, sid, k))
  {
    hide Inv, Exact, Consume;
    var n' := DoConsume(n, sid, k);
    ConsumeInv(n, sid, k);
    ConsumeStreams(n.s, sid, k);
    var es := DyingEvents(n, n');
    ConsumeWakes(n.s, sid, k);
    TxOnlyExact(n, n', es);
  }

  /** Calls that leave every record alone. */
  lemma NoticeExact(n: Node, c: Call)
    requires Inv(n) && Exact(n) && (c.CallCapacity? || c.CallGoAway? || c.CallTimer?)
    ensures Exact(Do(n, c))
  {
    hide Inv, Exact, Tidy, OnlyDies, SendCapacity, SendGoAway, OnTimer, DoOpen, DoWrite, DoClose, DoReset, DoConsume,
      DoAdvance, DoPop;
    var n' := Do(n, c);
    CallInv(n, c);
    TidyCall(n, c);
    TidyWire(n.s, n'.s);
    match c {
      case CallCapacity(w) => CapacityKeeps(n.s, w);
      case CallGoAway(r) => GoAwayKeeps(n.s, r);
      case CallTimer(now) => TimerKeeps(n.s, now);
    }
    var es := DyingEvents(n, n');
    TxOnlyExact(n, n', es);
  }

  lemma CapacityKeeps(s: Session, w: U32)
    ensures var s1 := SendCapacity(s, w).0; s1.streams == s.streams && SameBase(s, s1) && OnlyDies(s, s1)
  {
    hide Emit;
    EmitKeeps(s, Frame(T_CAPACITY, 0, SID_CONTROL, Put32(w)));
  }

  lemma GoAwayKeeps(s: Session, reason: U32)
    ensures var s1 := SendGoAway(s, reason).0; s1.streams == s.streams && SameBase(s, s1) && OnlyDies(s, s1)
  {
    hide Emit;
    EmitKeeps(s.(localGoaway := true), Frame(T_GOAWAY, 0, SID_CONTROL, Put32(reason) + Put32(s.maxRemote)));
  }

  lemma TimerKeeps(s: Session, now: nat)
    ensures var s1 := OnTimer(s, now).0; s1.streams == s.streams && SameBase(s, s1) && OnlyDies(s, s1)
  {
    hide Emit;
    EmitKeeps(s, PingFrame(s.timer.nonce));
  }

  lemma DrainExact(n: Node, c: Call)
    requires Inv(n) && Exact(n) && (c.CallAdvance? || c.CallPop?)
    ensures Exact(Do(n, c))
  {
    hide Inv, Exact, DoOpen, DoWrite, DoClose, DoReset, DoConsume, DoCapacity, DoGoAway, DoTimer;
    var n' := Do(n, c);
    CallInv(n, c);
    assert Log(n') == Log(n) + [];
    TxOnlyExact(n, n', []);
  }

  lemma OpenExact(n: Node, meta: seq<Byte>)
    requires Inv(n) && Exact(n) && IdsLeft(n) && Disciplined(n)
    ensures Exact(DoOpen(n, meta))
  {
    hide Inv, Exact, Encode, GrowTo, Disciplined, Tidy;
    var n' := DoOpen(n, meta);
    OpenInv(n, meta);
    NextSidFresh(n);
    TidyOpen(n.s, meta);
    TidyWire(n.s, n'.s);
    var es := DyingEvents(n, n');
    var r := OpenStream(n.s, meta).1;
    if r < 0 {
      TxOnlyExact(n, n', es);
    } else {
      OpenedExact(n, n', r, meta);
    }
  }

  lemma OpenedExact(n: Node, n': Node, sid: Sid, meta: seq<Byte>)
    requires Inv(n) && Exact(n) && Disciplined(n) && IdsLeft(n) && n.s.nextSid == sid && sid != SID_CONTROL
    requires |meta| <= MAX_META && Opened(n, n', sid, meta)
    ensures Exact(n')
  {
    hide IdsOk, HelloOk, FlowOk, SidOk, WireOk, EncodeAll, Tr, Hear, ExactSid, Used;
    NextSid(n);
    assert SidOk(n, sid) && ExactSid(n, sid);
    forall x: Sid ensures ExactSid(n', x) {
      assert SidOk(n, x) && ExactSid(n, x);
      OpenedExactSid(n, n', sid, meta, x);
    }
  }

  lemma OpenedExactSid(n: Node, n': Node, sid: Sid, meta: seq<Byte>, x: Sid)
    requires SidOk(n, x) && ExactSid(n, x) && !Used(n, sid) && Tr(n.rcvd, sid) == ZERO
    requires |meta| <= MAX_META && Opened(n, n', sid, meta)
    ensures ExactSid(n', x)
  {
    hide Tr, Hear;
    TrAppend(n.s.wire, SynFrame(sid, meta), x);
    assert Log(n') == Log(n);
  }

  lemma CallExact(n: Node, c: Call)
    requires Inv(n) && Exact(n) && Disciplined(n) && (c.CallOpen? ==> IdsLeft(n))
    ensures Exact(Do(n, c))
  {
    hide Inv, Exact, Disciplined, DoOpen, DoWrite, DoClose, DoReset, DoConsume, DoCapacity, DoGoAway, DoTimer,
        DoAdvance, DoPop;
    match c
    case CallOpen(meta) => OpenExact(n, meta);
    case CallWrite(sid, p) => WriteExact(n, sid, p);
    case CallClose(sid) => CloseExact(n, sid);
    case CallReset(sid, code) => ResetExact(n, sid, code);
    case CallConsume(sid, k) => ConsumeExact(n, sid, k);
    case CallCapacity(_) => NoticeExact(n, c);
    case CallGoAway(_) => NoticeExact(n, c);
    case CallTimer(_) => NoticeExact(n, c);
    case CallAdvance(_) => DrainExact(n, c);
    case CallPop => DrainExact(n, c);
  }

  // ---------------------------------------------------------------- received frames

  /** The next frame of a disciplined peer. */
  ghost predicate Polite(n: Node, f: Frame) {
    && MayFollow(Peer(n.s.role), n.rcvd, f)
    && (CarriesBytes(f) || (IsRst(f) && !IsSyn(f)) || IsCredit(f) ==> Used(n, f.sid))
  }

  lemma DieExact(n: Node, code: U32)
    requires Inv(n) && Exact(n)
    ensures Exact(n.(s := RaiseFatal(n.s, code)))
  {
    hide Inv, Exact;
    var n' := n.(s := RaiseFatal(n.s, code));
    var es := if n.s.dead then [] else [Fatal(code)];
    assert Log(n') == Log(n) + es;
    DieInv(n, code);
    TxOnlyExact(n, n', es);
  }

  lemma RefusedExactSid(n: Node, n': Node, f: Frame, x: Sid)
    requires SidOk(n, x) && ExactSid(n, x) && IsSyn(f) && !SynIllegal(n.s, f) && Refused(n, n', f)
    ensures ExactSid(n', x)
  {
    hide Tr, Hear;
    TrAppend(n.s.wire, RstFrame(f.sid, CODE_REFUSED), x);
    TrAppend(n.rcvd, f, x);
    assert Log(n') == Log(n);
  }

  lemma AdmittedExactSid(n: Node, n': Node, f: Frame, es: seq<Event>, x: Sid)
    requires SidOk(n, x) && ExactSid(n, x) && IsSyn(f) && !SynIllegal(n.s, f) && Admitted(n, n', f, es)
    requires Tr(n.rcvd, f.sid) == ZERO && f.flags == F_SYN
    ensures ExactSid(n', x)
  {
    hide Tr, Hear, TotalIn;
    TrAppend(n.rcvd, f, x);
    AdmittedLog(n, n', f, es, x);
    if x == f.sid {
      HearAppend(Log(n), es[0], x);
      assert Log(n') == Log(n) + [es[0]];
    }
  }

  lemma RefuseExact(n: Node, f: Frame, order: seq<Sid>)
    requires Inv(n) && Exact(n) && !n.s.dead && IsSyn(f) && !SynIllegal(n.s, f) && Refuses(n.s)
    ensures Exact(Receive(n, f, order))
  {
    hide IdsOk, HelloOk, FlowOk, WireOk, SidOk, ExactSid, Encode, EncodeAll, GrowTo;
    var n' := Receive(n, f, order);
    if HasRoom(n.s, RstFrame(f.sid, CODE_REFUSED)) {
      forall x: Sid ensures ExactSid(n', x) {
        RefusedExactSid(n, n', f, x);
      }
    } else {
      RefuseInv(n, f, order);
      assert Log(n') == Log(n) + [Fatal(CODE_INTERNAL)];
      TxOnlyExact(n, n', [Fatal(CODE_INTERNAL)]);
    }
  }

  lemma SynExact(n: Node, f: Frame, order: seq<Sid>)
    requires Inv(n) && Exact(n) && Disciplined(n) && !n.s.dead && n.s.helloSeen && IsSyn(f) && Polite(n, f)
    ensures Exact(Receive(n, f, order))
  {
    hide IdsOk, HelloOk, FlowOk, WireOk, SidOk, ExactSid, Encode, EncodeAll, GrowTo, Refuses, Tr, LastSyn;
    if SynIllegal(n.s, f) {
      DieExact(n, CODE_PROTOCOL);
    } else if Refuses(n.s) {
      RefuseExact(n, f, order);
    } else {
      var es := AdmitShape(n, f, order);
      var n' := Receive(n, f, order);
      assert !Used(n, f.sid);
      forall x: Sid ensures ExactSid(n', x) {
        AdmittedExactSid(n, n', f, es, x);
      }
    }
  }

  lemma DropExactSid(n: Node, f: Frame, x: Sid)
    requires ExactSid(n, x) && SidOk(n, x) && !n.s.dead && MayFollow(Peer(n.s.role), n.rcvd, f) && Used(n, f.sid)
    requires IsData(f) && !IsSyn(f) && f.sid !in n.s.streams && f.sid != SID_CONTROL
    ensures ExactSid(n.(rcvd := n.rcvd + [f]), x)
  {
    hide Tr, Hear, LastSyn;
    TrAppend(n.rcvd, f, x);
    assert Log(n.(rcvd := n.rcvd + [f])) == Log(n);
  }

  lemma ResetInExactSid(n: Node, f: Frame, code: U32, x: Sid)
    requires ExactSid(n, x) && IsRst(f) && !IsSyn(f) && f.sid in n.s.streams
    ensures ExactSid(n.(s := Remove(Queue(n.s, StreamReset(f.sid, code)), f.sid), rcvd := n.rcvd + [f]), x)
  {
    hide Tr, Hear;
    var n' := n.(s := Remove(Queue(n.s, StreamReset(f.sid, code)), f.sid), rcvd := n.rcvd + [f]);
    TrAppend(n.rcvd, f, x);
    HearAppend(Log(n), StreamReset(f.sid, code), x);
    assert Log(n') == Log(n) + [StreamReset(f.sid, code)];
  }

  lemma AbortedExactSid(n: Node, n': Node, f: Frame, code: U32, x: Sid)
    requires ExactSid(n, x) && CarriesBytes(f) && f.sid in n.s.streams && Aborted(n, n', f, code)
    requires MayFollow(Peer(n.s.role), n.rcvd, f)
    ensures ExactSid(n', x)
  {
    hide Tr, Hear, LastSyn;
    TrAppend(n.rcvd, f, x);
    TrAppend(n.s.wire, RstFrame(f.sid, code), x);
    HearAppend(Log(n), StreamReset(f.sid, CODE_NO_ERROR), x);
    assert Log(n') == Log(n) + [StreamReset(f.sid, CODE_NO_ERROR)];
  }

  lemma AbortExact(n: Node, f: Frame, code: U32)
    requires Inv(n) && Exact(n) && !n.s.dead && CarriesBytes(f) && f.sid in n.s.streams
    requires MayFollow(Peer(n.s.role), n.rcvd, f)
    ensures var s1 := AbortStream(n.s, f.sid, code);
            Exact(n.(s := s1, rcvd := if s1.dead then n.rcvd else n.rcvd + [f]))
  {
    hide IdsOk, HelloOk, FlowOk, WireOk, SidOk, ExactSid, Encode, EncodeAll, GrowTo, MayFollow;
    var s1 := AbortStream(n.s, f.sid, code);
    var n' := n.(s := s1, rcvd := if s1.dead then n.rcvd else n.rcvd + [f]);
    if HasRoom(n.s, RstFrame(f.sid, code)) {
      assert Aborted(n, n', f, code);
      forall x: Sid ensures ExactSid(n', x) {
        AbortedExactSid(n, n', f, code, x);
      }
    } else {
      AbortInv(n, f, code);
      var es := [Fatal(CODE_INTERNAL), StreamReset(f.sid, CODE_NO_ERROR)];
      assert Log(n') == Log(n) + es;
      TxOnlyExact(n, n', es);
    }
  }

  lemma DeliveredExactSid(n: Node, n': Node, f: Frame, es: seq<Event>, x: Sid)
    requires ExactSid(n, x) && SidOk(n, x) && CarriesBytes(f) && f.sid in n.s.streams && Delivered(n, n', f, es)
    requires MayFollow(Peer(n.s.role), n.rcvd, f)
    ensures ExactSid(n', x)
  {
    hide Tr, Hear, TotalIn, LastSyn;
    TrAppend(n.rcvd, f, x);
    DeliveredLog(n, n', f, es, x);
  }

  lemma StreamDataExact(n: Node, f: Frame, order: seq<Sid>)
    requires Inv(n) && Exact(n) && !n.s.dead && n.s.helloSeen && IsData(f) && !IsSyn(f) && Polite(n, f)
    ensures Exact(Receive(n, f, order))
  {
    hide IdsOk, HelloOk, FlowOk, SidOk, WireOk, EncodeAll, AbortStream, TakeData, TakeFin, Remove, MayFollow, ExactSid,
      OnHello, OnPing, OnGoAway, OnCapacity, OnWindowUpdate, OnSyn;
    var n' := Receive(n, f, order);
    if f.sid == SID_CONTROL {
      DieExact(n, CODE_PROTOCOL);
    } else if f.sid !in n.s.streams {
      forall x: Sid ensures ExactSid(n', x) {
        DropExactSid(n, f, x);
      }
    } else if HasRst(f.flags) {
      var code := if |f.payload| >= 4 then Get32(f.payload, 0) else CODE_NO_ERROR;
      RemoveDead(n.s, f.sid, code);
      forall x: Sid ensures ExactSid(n', x) {
        ResetInExactSid(n, f, code, x);
      }
    } else if Deliverable(n.s, f) {
      var es := DeliverShape(n, f, order);
      forall x: Sid ensures ExactSid(n', x) {
        DeliveredExactSid(n, n', f, es, x);
      }
    } else if n.s.streams[f.sid].life.HalfRemote? {
      AbortExact(n, f, CODE_PROTOCOL);
    } else if |f.payload| > n.s.recvWin {
      DieExact(n, CODE_FLOW_CONTROL);
    } else {
      AbortExact(n, f, CODE_FLOW_CONTROL);
    }
  }

  lemma GrantedExactSid(n: Node, n': Node, f: Frame, wake: bool, x: Sid)
    requires f.sid in n.s.streams && IsCredit(f) && StreamGranted(n, n', f, wake) && ExactSid(n, x)
    ensures ExactSid(n', x)
  {
    hide Tr, Hear, TotalIn;
    TrAppend(n.rcvd, f, x);
    GrantedLog(n, n', f, wake, x);
  }

  lemma UnknownCreditExactSid(n: Node, f: Frame, x: Sid)
    requires IsCredit(f) && f.sid !in n.s.streams && ExactSid(n, x)
    ensures ExactSid(n.(rcvd := n.rcvd + [f]), x)
  {
    hide Tr, Hear;
    TrAppend(n.rcvd, f, x);
    assert Log(n.(rcvd := n.rcvd + [f])) == Log(n);
  }

  lemma StreamCreditExact(n: Node, f: Frame)
    requires Inv(n) && Exact(n) && !n.s.dead && IsCredit(f) && f.sid != SID_CONTROL && n.s.helloSeen
    ensures var s1 := OnStreamCredit(n.s, f.sid, Get32(f.payload, 0));
            Exact(n.(s := s1, rcvd := if s1.dead then n.rcvd else n.rcvd + [f]))
  {
    hide IdsOk, HelloOk, FlowOk, SidOk, WireOk, EncodeAll, ExactSid, Get32;
    if f.sid !in n.s.streams {
      forall x: Sid ensures ExactSid(n.(rcvd := n.rcvd + [f]), x) {
        UnknownCreditExactSid(n, f, x);
      }
    } else if n.s.streams[f.sid].sendWin + Get32(f.payload, 0) > WINDOW_LIMIT {
      var n' := n.(s := OnStreamCredit(n.s, f.sid, Get32(f.payload, 0)));
      OverflowInv(n, f.sid, Get32(f.payload, 0));
      assert Log(n') == Log(n) + [Fatal(CODE_FLOW_CONTROL)];
      TxOnlyExact(n, n', [Fatal(CODE_FLOW_CONTROL)]);
    } else {
      var wake := GrantShape(n, f);
      var n' := n.(s := OnStreamCredit(n.s, f.sid, Get32(f.payload, 0)), rcvd := n.rcvd + [f]);
      forall x: Sid ensures ExactSid(n', x) {
        GrantedExactSid(n, n', f, wake, x);
      }
    }
  }

  lemma SessionGrantedExactSid(n: Node, n': Node, f: Frame, order: seq<Sid>, es: seq<Event>, x: Sid)
    requires IsCredit(f) && f.sid == SID_CONTROL && SessionGranted(n, n', f, order, es)
    requires ExactSid(n, x) && (x in n.s.streams ==> x != SID_CONTROL)
    ensures ExactSid(n', x)
  {
    hide Tr, Hear, TotalIn, Get32;
    TrAppend(n.rcvd, f, x);
    HearMute(Log(n), es, x);
    assert Log(n') == Log(n) + es;
    if x in n.s.streams {
      assert n'.s.streams[x] == Woken(n.s.streams[x], x in order);
    }
  }

  lemma SessionCreditExact(n: Node, f: Frame, order: seq<Sid>)
    requires Inv(n) && Exact(n) && !n.s.dead && IsCredit(f) && f.sid == SID_CONTROL && n.s.helloSeen
    requires Enumerates(order, n.s.streams.Keys)
    ensures var s1 := OnSessionCredit(n.s, Get32(f.payload, 0), order);
            Exact(n.(s := s1, rcvd := if s1.dead then n.rcvd else n.rcvd + [f]))
  {
    hide IdsOk, HelloOk, FlowOk, WireOk, EncodeAll, ExactSid, Get32, Sweep, Tr, Hear;
    if n.s.sendWin + Get32(f.payload, 0) > WINDOW_LIMIT {
      var n' := n.(s := OnSessionCredit(n.s, Get32(f.payload, 0), order));
      SessionOverflowInv(n, Get32(f.payload, 0));
      assert Log(n') == Log(n) + [Fatal(CODE_FLOW_CONTROL)];
      TxOnlyExact(n, n', [Fatal(CODE_FLOW_CONTROL)]);
    } else {
      var o, es := SessionGrantShape(n, f, order);
      var n' := n.(s := OnSessionCredit(n.s, Get32(f.payload, 0), order), rcvd := n.rcvd + [f]);
      assert !n'.s.dead;
      forall x: Sid ensures ExactSid(n', x) {
        assert SidOk(n, x);
        SessionGrantedExactSid(n, n', f, o, es, x);
      }
    }
  }

  lemma QuietExact(n: Node, n': Node, tx: seq<Frame>, rx: seq<Frame>, es: seq<Event>)
    requires Exact(n) && Quiet(n, n', tx, rx, es)
    ensures Exact(n')
  {
    hide Tr, Hear, TotalData, TotalIn, LastSyn;
    forall x: Sid ensures ExactSid(n', x) {
      assert ExactSid(n, x);
      QuietAppend(n.s.wire, tx, x);
      QuietAppend(n.rcvd, rx, x);
      HearMute(Log(n), es, x);
    }
  }

  lemma EchoExact(n: Node, f: Frame)
    requires Inv(n) && Exact(n) && !n.s.dead && n.s.helloSeen && Control(f)
    requires f.typ == T_PING && |f.payload| == 8
    ensures var s1 := Emit(n.s, Frame(T_PING, F_ACK, SID_CONTROL, f.payload)).0;
            Exact(n.(s := s1, rcvd := if s1.dead then n.rcvd else n.rcvd + [f]))
  {
    hide IdsOk, FlowOk, SidOk, WireOk, Encode, EncodeAll, GrowTo, TotalData, LastSyn, TotalIn, Exact;
    var g := Frame(T_PING, F_ACK, SID_CONTROL, f.payload);
    if HasRoom(n.s, g) {
      var n' := n.(s := Emitted(n.s, g), rcvd := n.rcvd + [f]);
      assert Log(n') == Log(n) + [];
      QuietExact(n, n', [g], [f], []);
    } else {
      DieExact(n, CODE_INTERNAL);
    }
  }

  lemma ControlExact(n: Node, f: Frame, order: seq<Sid>)
    requires Inv(n) && Exact(n) && !n.s.dead && n.s.helloSeen
    requires f.typ == T_PING || f.typ == T_GOAWAY || f.typ == T_CAPACITY
    ensures Exact(Receive(n, f, order))
  {
    hide IdsOk, FlowOk, SidOk, WireOk, Emit, EncodeAll, Exact, TotalData, LastSyn, OnHello, OnWindowUpdate, OnSyn,
      OnStreamData, Get32;
    var n' := Receive(n, f, order);
    if f.sid != SID_CONTROL || (if f.typ == T_PING then |f.payload| != 8
                                else if f.typ == T_GOAWAY then |f.payload| < 8 else |f.payload| != 4) {
      DieExact(n, CODE_PROTOCOL);
    } else if f.typ == T_PING && !HasAck(f.flags) {
      EchoExact(n, f);
    } else {
      var es := if f.typ == T_PING then []
                else if f.typ == T_GOAWAY then [GoAway(Get32(f.payload, 0), Get32(f.payload, 4))]
                else [Capacity(Get32(f.payload, 0))];
      assert n'.s.events == n.s.events + es;
      assert Log(n') == Log(n) + es;
      assert n'.s.wire == n.s.wire + [];
      QuietExact(n, n', [], [f], es);
    }
  }

  /** Before and right after the greeting there is no stream state to be wrong about. */
  lemma HelloExact(n: Node, f: Frame, order: seq<Sid>)
    requires Inv(n) && Exact(n) && !n.s.dead && IsHello(f)
    ensures Exact(Receive(n, f, order))
  {
    hide Inv, Exact, Receive, OnHello;
    BeforeHello(n);
    NoStreamsYet(n);
    HelloReceived(n, f, order);
    var n' := Receive(n, f, order);
    if n.s.helloSeen || f.sid != SID_CONTROL {
      HelloRejected(n.s, f, f.typ == T_HELLO_ACK);
      DieExact(n, CODE_PROTOCOL);
    } else {
      HelloEvents(n.s, f, f.typ == T_HELLO_ACK);
      var es := n'.s.events[|n.s.events|..];
      assert n'.s.events == n.s.events + es;
      assert Log(n') == Log(n) + es;
      FreshExact(n, n', es);
    }
  }

  lemma NoStreamsYet(n: Node)
    requires Inv(n)
    ensures !n.s.helloSeen ==> n.s.streams == map[] && n.rcvd == []
  {
    hide IdsOk, FlowOk, SidOk, WireOk, EncodeAll, TotalData;
  }

  lemma HelloEvents(s: Session, f: Frame, ack: bool)
    requires GoodConfig(s.cfg) && !s.dead && !s.helloSeen
    ensures var s1 := OnHello(s, f, ack);
            && s1.streams == s.streams && s.events <= s1.events
            && forall e :: e in s1.events[|s.events|..] ==> Mute(e)
  {
    hide ReadTlvs, Encode, GrowTo, HelloPayload;
    TidyHello(s, f, ack);
  }

  lemma FreshExact(n: Node, n': Node, es: seq<Event>)
    requires Exact(n) && n.s.streams == map[] && n'.s.streams == map[] && n.rcvd == []
    requires |n'.rcvd| <= 1 && (forall f :: f in n'.rcvd ==> IsHello(f))
    requires Log(n') == Log(n) + es && forall e :: e in es ==> Mute(e)
    ensures Exact(n')
  {
    hide Hear, TotalIn, Tr;
    forall x: Sid ensures ExactSid(n', x) {
      assert ExactSid(n, x);
      HearMute(Log(n), es, x);
      OnlyHello(n.rcvd, x);
      OnlyHello(n'.rcvd, x);
    }
  }

  lemma OnlyHello(w: seq<Frame>, sid: Sid)
    requires |w| <= 1 && forall f :: f in w ==> IsHello(f)
    ensures Tr(w, sid) == ZERO
  {
    if |w| == 1 {
      assert w[0] in w;
    }
  }

  /** Any frame of a disciplined peer keeps the exact correspondence. */
  lemma ReceiveExact(n: Node, f: Frame, order: seq<Sid>)
    requires Inv(n) && Exact(n) && Disciplined(n) && Polite(n, f) && Enumerates(order, n.s.streams.Keys)
    ensures Exact(Receive(n, f, order))
  {
    hide IdsOk, HelloOk, FlowOk, SidOk, WireOk, EncodeAll, Exact, OnSessionCredit, OnStreamCredit, OnHello, OnPing,
      OnGoAway, OnCapacity, OnSyn, OnStreamData, Get32, Disciplined, Polite;
    if n.s.dead {
    } else if IsHello(f) {
      HelloExact(n, f, order);
    } else if !n.s.helloSeen {
      DieExact(n, CODE_PROTOCOL);
    } else if f.typ == T_DATA {
      if HasSyn(f.flags) {
        SynExact(n, f, order);
      } else {
        StreamDataExact(n, f, order);
      }
    } else if f.typ == T_WINDOW_UPDATE {
      if |f.payload| != 4 {
        DieExact(n, CODE_PROTOCOL);
      } else if f.sid == SID_CONTROL {
        SessionCreditExact(n, f, order);
      } else {
        StreamCreditExact(n, f);
      }
    } else if f.typ == T_PING || f.typ == T_GOAWAY || f.typ == T_CAPACITY {
      ControlExact(n, f, order);
    } else {
      DieExact(n, CODE_PROTOCOL);
    }
  }

  lemma StartExact(s: Session)
    requires s.streams == map[] && s.events == []
    ensures Exact(Start(s))
  {
    assert Log(Start(s)) == [];
  }
}
