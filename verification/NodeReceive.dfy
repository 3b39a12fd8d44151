/** Processing a received frame, whatever the peer sends, keeps Node.Inv. */
module NodeReceive {
  import opened Wire
  import opened Codec
  import opened Session
  import opened Trace
  import opened Node
  import opened NodeSteps
  import opened NodeSend

  // ---------------------------------------------------------------- SYN refused

  ghost predicate Refused(n: Node, n': Node, f: Frame) {
    && n' == n.(s := n'.s, rcvd := n.rcvd + [f])
    && n'.s == n.s.(wire := n.s.wire + [RstFrame(f.sid, CODE_REFUSED)], maxRemote := f.sid,
                    out := n'.s.out, cap := n'.s.cap)
  }

  lemma RefusedSid(n: Node, n': Node, f: Frame, x: Sid)
    requires SidOk(n, x) && IsSyn(f) && !SynIllegal(n.s, f) && Refused(n, n', f)
    ensures SidOk(n', x)
  {
    hide Tr, Hear;
    TrAppend(n.s.wire, RstFrame(f.sid, CODE_REFUSED), x);
    TrAppend(n.rcvd, f, x);
    assert Log(n') == Log(n);
  }

  lemma RefusedSess(n: Node, n': Node, f: Frame)
    requires SessOk(n) && IsSyn(f) && !SynIllegal(n.s, f) && Refused(n, n', f) && !n.s.dead
    ensures SessOk(n')
  {
    hide Tr, TotalData, LastSyn, TotalIn;
    var g := RstFrame(f.sid, CODE_REFUSED);
    TrAppend(n.s.wire, g, SID_CONTROL);
    TotalAppend(n.s.wire, g);
    LastSynAppend(n.s.wire, g);
    TrAppend(n.rcvd, f, SID_CONTROL);
    TotalAppend(n.rcvd, f);
    LastSynAppend(n.rcvd, f);
    assert Log(n') == Log(n);
  }

  /** The refusal itself did not fit: the session is dead and only remembers the id. */
  lemma RefusedDead(n: Node, sid: Sid)
    requires Inv(n) && n.s.dead && n.s.helloSeen && !Own(n.s.role, sid) && sid > n.s.maxRemote
    ensures Inv(n.(s := n.s.(maxRemote := sid)))
  {
    hide WireOk, EncodeAll, Tr, TotalData, LastSyn, TotalIn, Hear;
    var n' := n.(s := n.s.(maxRemote := sid));
    assert Log(n') == Log(n);
    forall x: Sid ensures SidOk(n', x) {
      assert SidOk(n, x);
    }
  }

  lemma RefuseInv(n: Node, f: Frame, order: seq<Sid>)
    requires Inv(n) && !n.s.dead && IsSyn(f) && !SynIllegal(n.s, f) && Refuses(n.s)
    ensures Inv(Receive(n, f, order))
  {
    hide IdsOk, HelloOk, FlowOk, Encode, EncodeAll, GrowTo, WireOk, Tr, LastSyn, Hear;
    var n' := Receive(n, f, order);
    var g := RstFrame(f.sid, CODE_REFUSED);
    assert SidOk(n, f.sid);
    if HasRoom(n.s, g) {
      forall x: Sid ensures SidOk(n', x) {
        RefusedSid(n, n', f, x);
      }
      RefusedSess(n, n', f);
      WireOkAppend(n.s.role, n.s.wire, g);
      EncodeAppend(n.s.wire, g);
    } else {
      DieInv(n, CODE_INTERNAL);
      RefusedDead(n.(s := RaiseFatal(n.s, CODE_INTERNAL)), f.sid);
    }
  }

  // ---------------------------------------------------------------- SYN admitted

  /** The stream is recorded, unless the same frame aborts it. */
  ghost predicate Admitted(n: Node, n': Node, f: Frame, es: seq<Event>) {
    var life := if HasFin(f.flags) then HalfRemote else Open;
    && n' == n.(s := n'.s, rcvd := n.rcvd + [f])
    && n'.s == n.s.(streams := if HasRst(f.flags) then n.s.streams
                               else n.s.streams[f.sid := Fresh(n.s).(life := life)],
                    maxRemote := f.sid, events := n.s.events + es)
    && es == [StreamOpened(f.sid, f.payload)]
             + (if HasRst(f.flags) then [StreamReset(f.sid, CODE_NO_ERROR)]
                else if HasFin(f.flags) then [StreamClosed(f.sid)] else [])
  }

  lemma AdmittedLog(n: Node, n': Node, f: Frame, es: seq<Event>, x: Sid)
    requires Admitted(n, n', f, es)
    ensures Hear(Log(n'), x).data == Hear(Log(n), x).data && TotalIn(Log(n')) == TotalIn(Log(n))
    ensures Hear(Log(n'), x).closed
            == (Hear(Log(n), x).closed || (x == f.sid && HasFin(f.flags) && !HasRst(f.flags)))
  {
    hide Hear, TotalIn, HasFin, HasRst;
    HearAppend(Log(n), es[0], x);
    if |es| == 1 {
      assert Log(n') == Log(n) + [es[0]];
    } else {
      HearAppend(Log(n) + [es[0]], es[1], x);
      assert Log(n') == Log(n) + [es[0]] + [es[1]];
    }
  }

  lemma AdmittedSid(n: Node, n': Node, f: Frame, es: seq<Event>, x: Sid)
    requires SidOk(n, x) && IsSyn(f) && !SynIllegal(n.s, f) && Admitted(n, n', f, es)
    ensures SidOk(n', x)
  {
    hide Tr, Hear, Log, HasSyn, HasFin, HasRst, Get32, OddSid, Consumed, Wrote;
    TrAppend(n.rcvd, f, x);
    AdmittedLog(n, n', f, es, x);
    SameBooks(n, n', x);
  }

  lemma SameBooks(n: Node, n': Node, x: Sid)
    requires n'.wrote == n.wrote && n'.consumed == n.consumed
    ensures Wrote(n', x) == Wrote(n, x) && Consumed(n', x) == Consumed(n, x)
  {
  }

  lemma AdmittedSess(n: Node, n': Node, f: Frame, es: seq<Event>)
    requires SessOk(n) && IsSyn(f) && !SynIllegal(n.s, f) && Admitted(n, n', f, es) && !n.s.dead
    ensures SessOk(n')
  {
    hide Tr, TotalData, LastSyn, TotalIn;
    TrAppend(n.rcvd, f, SID_CONTROL);
    TotalAppend(n.rcvd, f);
    LastSynAppend(n.rcvd, f);
    AdmittedLog(n, n', f, es, SID_CONTROL);
    assert BlockedSet(n'.s.streams) == BlockedSet(n.s.streams);
  }

  lemma AdmitShape(n: Node, f: Frame, order: seq<Sid>) returns (es: seq<Event>)
    requires GoodConfig(n.s.cfg) && !n.s.dead && IsSyn(f) && !SynIllegal(n.s, f) && !Refuses(n.s)
    ensures Admitted(n, Receive(n, f, order), f, es)
  {
    assert n.s.helloSeen;
    hide SynIllegal, Refuses, OnSyn, OnStreamData, OnWindowUpdate, OnPing, OnGoAway, OnCapacity, OnHello,
      HasSyn, HasFin, HasRst, Get32, OddSid, Admitted;
    var s1 := OnSyn(n.s, f);
    var n1 := n.(s := s1, rcvd := n.rcvd + [f]);
    es := SynShape(n, n1, f);
    assert Receive(n, f, order) == n1;
  }

  lemma SynShape(n: Node, n': Node, f: Frame) returns (es: seq<Event>)
    requires n' == n.(s := OnSyn(n.s, f), rcvd := n.rcvd + [f])
    requires !SynIllegal(n.s, f) && f.sid !in n.s.streams && !Refuses(n.s) && !n.s.dead
    ensures Admitted(n, n', f, es) && !n'.s.dead
  {
    hide SynIllegal, Refuses, HasSyn, HasFin, HasRst, Get32, OddSid;
    es := [StreamOpened(f.sid, f.payload)]
          + (if HasRst(f.flags) then [StreamReset(f.sid, CODE_NO_ERROR)]
             else if HasFin(f.flags) then [StreamClosed(f.sid)] else []);
    assert n'.s.events == n.s.events + es;
    assert n.s.streams[f.sid := Fresh(n.s)] - {f.sid} == n.s.streams;
  }

  lemma AdmitInv(n: Node, f: Frame, order: seq<Sid>)
    requires Inv(n) && !n.s.dead && IsSyn(f) && !SynIllegal(n.s, f) && !Refuses(n.s)
    ensures Inv(Receive(n, f, order))
  {
    hide IdsOk, HelloOk, FlowOk, SidOk, WireOk, EncodeAll, Receive;
    var es := AdmitShape(n, f, order);
    var n' := Receive(n, f, order);
    forall x: Sid ensures SidOk(n', x) {
      AdmittedSid(n, n', f, es, x);
    }
    AdmittedSess(n, n', f, es);
  }

  // ---------------------------------------------------------------- DATA on an unknown stream

  lemma DropInv(n: Node, f: Frame)
    requires Inv(n) && !n.s.dead && n.s.helloSeen
    requires IsData(f) && !IsSyn(f) && f.sid != SID_CONTROL && f.sid !in n.s.streams
    ensures Inv(n.(rcvd := n.rcvd + [f]))
  {
    hide WireOk, EncodeAll, Tr, TotalData, LastSyn, TotalIn, Hear;
    var n' := n.(rcvd := n.rcvd + [f]);
    TrAppend(n.rcvd, f, SID_CONTROL);
    TotalAppend(n.rcvd, f);
    LastSynAppend(n.rcvd, f);
    assert Log(n') == Log(n);
    forall x: Sid ensures SidOk(n', x) {
      assert SidOk(n, x);
      TrAppend(n.rcvd, f, x);
    }
  }

  // ---------------------------------------------------------------- RST

  /** The record goes, the host is told. */
  ghost predicate ResetIn(n: Node, n': Node, f: Frame, code: U32) {
    && n' == n.(s := n'.s, rcvd := n.rcvd + [f])
    && n'.s == n.s.(streams := n.s.streams - {f.sid}, blockedCount := n'.s.blockedCount,
                    events := n.s.events + [StreamReset(f.sid, code)])
  }

  lemma ResetHeard(n: Node, n': Node, sid: Sid, code: U32, x: Sid)
    requires n'.popped == n.popped && n'.s.events == n.s.events + [StreamReset(sid, code)]
    ensures Hear(Log(n'), x) == Hear(Log(n), x)
  {
    hide Hear;
    HearAppend(Log(n), StreamReset(sid, code), x);
    assert Log(n') == Log(n) + [StreamReset(sid, code)];
  }

  lemma ResetInSid(n: Node, n': Node, f: Frame, code: U32, x: Sid)
    requires SidOk(n, x) && IsRst(f) && !IsSyn(f) && f.sid in n.s.streams && ResetIn(n, n', f, code)
    ensures SidOk(n', x)
  {
    hide Tr, Hear, Log, HasSyn, HasFin, HasRst, Get32, OddSid, Consumed, Wrote;
    TrAppend(n.rcvd, f, x);
    ResetHeard(n, n', f.sid, code, x);
    SameBooks(n, n', x);
  }

  lemma ResetInSess(n: Node, f: Frame, code: U32)
    requires SessOk(n) && IsRst(f) && !IsSyn(f) && f.sid in n.s.streams && f.sid != SID_CONTROL && !n.s.dead
    ensures SessOk(n.(s := Remove(Queue(n.s, StreamReset(f.sid, code)), f.sid), rcvd := n.rcvd + [f]))
  {
    hide Tr, TotalData, LastSyn, TotalIn, Hear;
    var n' := n.(s := Remove(Queue(n.s, StreamReset(f.sid, code)), f.sid), rcvd := n.rcvd + [f]);
    TrAppend(n.rcvd, f, SID_CONTROL);
    TotalAppend(n.rcvd, f);
    LastSynAppend(n.rcvd, f);
    HearAppend(Log(n), StreamReset(f.sid, code), SID_CONTROL);
    assert Log(n') == Log(n) + [StreamReset(f.sid, code)];
    BlockedRemove(n.s.streams, f.sid);
    assert f.sid in BlockedSet(n.s.streams) <==> n.s.streams[f.sid].blocked;
  }

  lemma ResetInInv(n: Node, f: Frame, code: U32)
    requires Inv(n) && !n.s.dead && IsRst(f) && !IsSyn(f) && f.sid in n.s.streams
    ensures Inv(n.(s := Remove(Queue(n.s, StreamReset(f.sid, code)), f.sid), rcvd := n.rcvd + [f]))
  {
    hide SessOk, WireOk, EncodeAll, Tr, Hear;
    var n' := n.(s := Remove(Queue(n.s, StreamReset(f.sid, code)), f.sid), rcvd := n.rcvd + [f]);
    assert SidOk(n, f.sid);
    forall x: Sid ensures SidOk(n', x) {
      ResetInSid(n, n', f, code, x);
    }
    ResetInSess(n, f, code);
  }

  // ---------------------------------------------------------------- a frame that aborts its stream

  /** An RST goes out, the record goes, the frame's bytes are discarded. */
  ghost predicate Aborted(n: Node, n': Node, f: Frame, code: U32) {
    && n' == n.(s := n'.s, rcvd := n.rcvd + [f])
    && n'.s == n.s.(wire := n.s.wire + [RstFrame(f.sid, code)], streams := n.s.streams - {f.sid},
                    blockedCount := n'.s.blockedCount, events := n.s.events + [StreamReset(f.sid, CODE_NO_ERROR)],
                    out := n'.s.out, cap := n'.s.cap)
  }

  lemma AbortedSid(n: Node, n': Node, f: Frame, code: U32, x: Sid)
    requires SidOk(n, x) && CarriesBytes(f) && f.sid in n.s.streams && Aborted(n, n', f, code)
    ensures SidOk(n', x)
  {
    hide Tr, Hear, HasSyn, HasFin, HasRst, Get32, OddSid;
    FlagFacts();
    TrAppend(n.rcvd, f, x);
    TrAppend(n.s.wire, RstFrame(f.sid, code), x);
    HearAppend(Log(n), StreamReset(f.sid, CODE_NO_ERROR), x);
    assert Log(n') == Log(n) + [StreamReset(f.sid, CODE_NO_ERROR)];
  }

  lemma AbortedSess(n: Node, n': Node, f: Frame, code: U32)
    requires SessOk(n) && !n.s.dead && CarriesBytes(f) && f.sid in n.s.streams && f.sid != SID_CONTROL
    requires Aborted(n, n', f, code) && n'.s.blockedCount == Remove(n.s, f.sid).blockedCount
    ensures SessOk(n')
  {
    hide Tr, TotalData, LastSyn, TotalIn, Hear;
    var g := RstFrame(f.sid, code);
    TrAppend(n.s.wire, g, SID_CONTROL);
    TotalAppend(n.s.wire, g);
    LastSynAppend(n.s.wire, g);
    TrAppend(n.rcvd, f, SID_CONTROL);
    TotalAppend(n.rcvd, f);
    LastSynAppend(n.rcvd, f);
    HearAppend(Log(n), StreamReset(f.sid, CODE_NO_ERROR), SID_CONTROL);
    assert Log(n') == Log(n) + [StreamReset(f.sid, CODE_NO_ERROR)];
    BlockedRemove(n.s.streams, f.sid);
    assert f.sid in BlockedSet(n.s.streams) <==> n.s.streams[f.sid].blocked;
  }

  lemma MuteInv(n: Node, e: Event)
    requires Inv(n) && Mute(e)
    ensures Inv(n.(s := Queue(n.s, e)))
  {
    hide SessOk, SidOk, WireOk, EncodeAll;
    var n' := n.(s := Queue(n.s, e));
    assert Log(n') == Log(n) + [e];
    assert n.s.wire + [] == n.s.wire && n.rcvd + [] == n.rcvd;
    QuietInv(n, n', [], [], [e]);
  }

  lemma AbortInv(n: Node, f: Frame, code: U32)
    requires Inv(n) && !n.s.dead && CarriesBytes(f) && f.sid in n.s.streams
    ensures var s1 := AbortStream(n.s, f.sid, code);
            Inv(n.(s := s1, rcvd := if s1.dead then n.rcvd else n.rcvd + [f]))
  {
    hide SessOk, WireOk, Encode, EncodeAll, GrowTo, Tr, Hear, LastSyn;
    var s1 := AbortStream(n.s, f.sid, code);
    var n' := n.(s := s1, rcvd := if s1.dead then n.rcvd else n.rcvd + [f]);
    var g := RstFrame(f.sid, code);
    assert SidOk(n, f.sid);
    if HasRoom(n.s, g) {
      assert Aborted(n, n', f, code);
      forall x: Sid ensures SidOk(n', x) {
        AbortedSid(n, n', f, code, x);
      }
      AbortedSess(n, n', f, code);
      WireOkAppend(n.s.role, n.s.wire, g);
      EncodeAppend(n.s.wire, g);
    } else {
      AbortDies(n, f, code);
    }
  }

  lemma AbortDies(n: Node, f: Frame, code: U32)
    requires Inv(n) && !n.s.dead && CarriesBytes(f) && f.sid in n.s.streams && !HasRoom(n.s, RstFrame(f.sid, code))
    ensures var s1 := AbortStream(n.s, f.sid, code); s1.dead && Inv(n.(s := s1))
  {
    hide Inv, Encode, EncodeAll, GrowTo;
    DieInv(n, CODE_INTERNAL);
    var n1 := n.(s := RaiseFatal(n.s, CODE_INTERNAL));
    MuteInv(n1, StreamReset(f.sid, CODE_NO_ERROR));
    DeadRemoveInv(n1.(s := Queue(n1.s, StreamReset(f.sid, CODE_NO_ERROR))), f.sid);
  }

  // ---------------------------------------------------------------- stream bytes and FIN

  /** Delivery: the bytes are debited from both windows and reported, then the FIN if there is one. */
  ghost predicate Delivered(n: Node, n': Node, f: Frame, es: seq<Event>)
    requires f.sid in n.s.streams
  {
    var st := n.s.streams[f.sid];
    var rest := st.(recvWin := st.recvWin - |f.payload|);
    && n' == n.(s := n'.s, rcvd := n.rcvd + [f])
    && n'.s == n.s.(streams := if !HasFin(f.flags) then n.s.streams[f.sid := rest]
                               else if st.life.HalfLocal? then n.s.streams - {f.sid}
                               else n.s.streams[f.sid := rest.(life := HalfRemote)],
                    recvWin := n.s.recvWin - |f.payload|,
                    blockedCount := if HasFin(f.flags) && st.life.HalfLocal? then Remove(n.s, f.sid).blockedCount
                                    else n.s.blockedCount,
                    events := n.s.events + es)
    && es == (if |f.payload| > 0 then [StreamData(f.sid, f.payload)] else [])
             + (if HasFin(f.flags) then [StreamClosed(f.sid)] else [])
  }

  lemma DeliveredLog(n: Node, n': Node, f: Frame, es: seq<Event>, x: Sid)
    requires f.sid in n.s.streams && Delivered(n, n', f, es)
    ensures Hear(Log(n'), x) == if x == f.sid then Heard(Hear(Log(n), x).data + f.payload,
                                                         Hear(Log(n), x).closed || HasFin(f.flags))
                                else Hear(Log(n), x)
    ensures TotalIn(Log(n')) == TotalIn(Log(n)) + |f.payload|
  {
    hide Hear, TotalIn;
    var log1 := Log(n) + if |f.payload| > 0 then [StreamData(f.sid, f.payload)] else [];
    if |f.payload| > 0 {
      HearAppend(Log(n), StreamData(f.sid, f.payload), x);
    } else {
      assert log1 == Log(n);
      assert Hear(Log(n), x).data + f.payload == Hear(Log(n), x).data;
    }
    if HasFin(f.flags) {
      HearAppend(log1, StreamClosed(f.sid), x);
      assert Log(n') == log1 + [StreamClosed(f.sid)];
    } else {
      assert Log(n') == log1;
    }
  }

  lemma DeliveredSid(n: Node, n': Node, f: Frame, es: seq<Event>, x: Sid)
    requires SidOk(n, x) && CarriesBytes(f) && f.sid in n.s.streams && Delivered(n, n', f, es)
    requires |f.payload| > 0 ==> |f.payload| <= n.s.streams[f.sid].recvWin
    ensures SidOk(n', x)
  {
    hide Tr, Hear, TotalIn;
    TrAppend(n.rcvd, f, x);
    DeliveredLog(n, n', f, es, x);
  }

  lemma DeliveredSess(n: Node, n': Node, f: Frame, es: seq<Event>)
    requires SessOk(n) && CarriesBytes(f) && f.sid in n.s.streams && Delivered(n, n', f, es)
    requires (|f.payload| > 0 ==> |f.payload| <= n.s.recvWin) && f.sid != SID_CONTROL && !n.s.dead
    ensures SessOk(n')
  {
    hide Tr, TotalData, LastSyn, TotalIn, Hear;
    TrAppend(n.rcvd, f, SID_CONTROL);
    TotalAppend(n.rcvd, f);
    LastSynAppend(n.rcvd, f);
    DeliveredLog(n, n', f, es, SID_CONTROL);
    BlockedRemove(n.s.streams, f.sid);
    assert f.sid in BlockedSet(n.s.streams) <==> n.s.streams[f.sid].blocked;
    if f.sid in n'.s.streams {
      BlockedUpdate(n.s.streams, f.sid, n'.s.streams[f.sid]);
    }
  }

  /** A data frame the windows and the stream's state allow. */
  predicate Deliverable(s: Session, f: Frame) {
    && CarriesBytes(f) && f.sid in s.streams
    && (|f.payload| > 0 ==>
          !s.streams[f.sid].life.HalfRemote? && |f.payload| <= s.recvWin && |f.payload| <= s.streams[f.sid].recvWin)
  }

  lemma DeliverShape(n: Node, f: Frame, order: seq<Sid>) returns (es: seq<Event>)
    requires GoodConfig(n.s.cfg) && !n.s.dead && n.s.helloSeen && Deliverable(n.s, f) && f.sid != SID_CONTROL
    ensures Delivered(n, Receive(n, f, order), f, es)
  {
    hide OnHello, OnPing, OnGoAway, OnCapacity, OnWindowUpdate, OnSyn, OnStreamData, HasSyn, HasFin, HasRst, Get32,
        Delivered;
    var n1 := n.(s := OnStreamData(n.s, f), rcvd := n.rcvd + [f]);
    es := DataShape(n, n1, f);
    assert Receive(n, f, order) == n1;
  }

  lemma DataShape(n: Node, n': Node, f: Frame) returns (es: seq<Event>)
    requires n' == n.(s := OnStreamData(n.s, f), rcvd := n.rcvd + [f])
    requires !n.s.dead && Deliverable(n.s, f) && f.sid != SID_CONTROL
    ensures Delivered(n, n', f, es) && !n'.s.dead
  {
    hide AbortStream, HasSyn, HasFin, HasRst, Get32, TakeData, TakeFin;
    var data := if |f.payload| > 0 then [StreamData(f.sid, f.payload)] else [];
    var fin := if HasFin(f.flags) then [StreamClosed(f.sid)] else [];
    es := data + fin;
    var s1 := BytesShape(n.s, f);
    FinShape(s1, f.sid);
    assert n'.s.events == n.s.events + es;
    var st := n.s.streams[f.sid];
    var rest := st.(recvWin := st.recvWin - |f.payload|);
    assert n.s.streams[f.sid := rest] - {f.sid} == n.s.streams - {f.sid};
    assert n.s.streams[f.sid := rest][f.sid := rest.(life := HalfRemote)]
           == n.s.streams[f.sid := rest.(life := HalfRemote)];
  }

  lemma BytesShape(s: Session, f: Frame) returns (s1: Session)
    requires f.sid in s.streams
    ensures s1 == (if |f.payload| > 0 then TakeData(s, f) else s)
    ensures var st := s.streams[f.sid];
            s1 == s.(streams := s.streams[f.sid := st.(recvWin := st.recvWin - |f.payload|)],
                     recvWin := s.recvWin - |f.payload|,
                     events := s.events + if |f.payload| > 0 then [StreamData(f.sid, f.payload)] else [])
  {
    s1 := if |f.payload| > 0 then TakeData(s, f) else s;
    assert s.streams[f.sid := s.streams[f.sid]] == s.streams;
  }

  lemma FinShape(s: Session, sid: Sid)
    requires sid in s.streams
    ensures var st := s.streams[sid];
            TakeFin(s, sid) == s.(streams := if st.life.HalfLocal? then s.streams - {sid}
                                             else s.streams[sid := st.(life := HalfRemote)],
                                  blockedCount := if st.life.HalfLocal? then Remove(s, sid).blockedCount
                                      else s.blockedCount,
                                  events := s.events + [StreamClosed(sid)])
  {
  }

  lemma DeliverInv(n: Node, f: Frame, order: seq<Sid>)
    requires Inv(n) && !n.s.dead && n.s.helloSeen && Deliverable(n.s, f)
    ensures Inv(Receive(n, f, order))
  {
    hide IdsOk, HelloOk, FlowOk, WireOk, EncodeAll, Receive, Tr, Hear;
    assert SidOk(n, f.sid);
    var es := DeliverShape(n, f, order);
    var n' := Receive(n, f, order);
    forall x: Sid ensures SidOk(n', x) {
      DeliveredSid(n, n', f, es, x);
    }
    DeliveredSess(n, n', f, es);
  }

  /** Non-SYN DATA, every branch. */
  lemma StreamDataInv(n: Node, f: Frame, order: seq<Sid>)
    requires Inv(n) && !n.s.dead && n.s.helloSeen && IsData(f) && !IsSyn(f)
    ensures Inv(Receive(n, f, order))
  {
    hide IdsOk, HelloOk, FlowOk, SidOk, WireOk, EncodeAll, AbortStream, TakeData, TakeFin, Remove, OnHello, OnPing,
      OnGoAway, OnCapacity, OnWindowUpdate, OnSyn;
    if f.sid == SID_CONTROL {
      DieInv(n, CODE_PROTOCOL);
    } else if f.sid !in n.s.streams {
      DropInv(n, f);
    } else if HasRst(f.flags) {
      var code := if |f.payload| >= 4 then Get32(f.payload, 0) else CODE_NO_ERROR;
      ResetInInv(n, f, code);
      RemoveDead(n.s, f.sid, code);
    } else if Deliverable(n.s, f) {
      DeliverInv(n, f, order);
    } else if n.s.streams[f.sid].life.HalfRemote? {
      AbortInv(n, f, CODE_PROTOCOL);
    } else if |f.payload| > n.s.recvWin {
      DieInv(n, CODE_FLOW_CONTROL);
    } else {
      AbortInv(n, f, CODE_FLOW_CONTROL);
    }
  }

  lemma RemoveDead(s: Session, sid: Sid, code: U32)
    requires sid in s.streams
    ensures var s1 := Remove(Queue(s, StreamReset(sid, code)), sid); s1.dead == s.dead && s1.helloSeen == s.helloSeen
  {
  }

  // ---------------------------------------------------------------- WINDOW_UPDATE for a stream

  ghost predicate StreamGranted(n: Node, n': Node, f: Frame, wake: bool)
    requires f.sid in n.s.streams && IsCredit(f)
  {
    var st := n.s.streams[f.sid];
    var st' := st.(sendWin := st.sendWin + Get32(f.payload, 0), blocked := st.blocked && !wake);
    && n' == n.(s := n'.s, rcvd := n.rcvd + [f])
    && n'.s == n.s.(streams := n.s.streams[f.sid := st'],
                    blockedCount := n.s.blockedCount - (if wake then 1 else 0),
                    events := n.s.events + if wake then [Writable(f.sid)] else [])
    && wake == (st.blocked && st'.sendWin > 0 && n.s.sendWin > 0)
  }

  lemma GrantedLog(n: Node, n': Node, f: Frame, wake: bool, x: Sid)
    requires f.sid in n.s.streams && IsCredit(f) && StreamGranted(n, n', f, wake)
    ensures Hear(Log(n'), x) == Hear(Log(n), x) && TotalIn(Log(n')) == TotalIn(Log(n))
  {
    hide Hear, TotalIn;
    HearAppend(Log(n), Writable(f.sid), x);
    assert Log(n') == if wake then Log(n) + [Writable(f.sid)] else Log(n);
  }

  lemma GrantedSid(n: Node, n': Node, f: Frame, wake: bool, x: Sid)
    requires f.sid in n.s.streams && IsCredit(f) && StreamGranted(n, n', f, wake) && SidOk(n, x)
    ensures SidOk(n', x)
  {
    hide Tr, Hear, TotalIn;
    TrAppend(n.rcvd, f, x);
    GrantedLog(n, n', f, wake, x);
  }

  lemma GrantedSess(n: Node, n': Node, f: Frame, wake: bool)
    requires f.sid in n.s.streams && IsCredit(f) && StreamGranted(n, n', f, wake) && SessOk(n)
    requires f.sid != SID_CONTROL && !n.s.dead
    ensures SessOk(n')
  {
    hide Tr, TotalData, LastSyn, TotalIn, Hear;
    TrAppend(n.rcvd, f, SID_CONTROL);
    TotalAppend(n.rcvd, f);
    LastSynAppend(n.rcvd, f);
    GrantedLog(n, n', f, wake, SID_CONTROL);
    BlockedUpdate(n.s.streams, f.sid, n'.s.streams[f.sid]);
    assert f.sid in BlockedSet(n.s.streams) <==> n.s.streams[f.sid].blocked;
  }

  /** A grant that overflows the limit kills the session; the record keeps the sum. */
  lemma OverflowInv(n: Node, sid: Sid, c: nat)
    requires Inv(n) && !n.s.dead && sid in n.s.streams
    ensures var st := n.s.streams[sid];
            Inv(n.(s := RaiseFatal(n.s.(streams := n.s.streams[sid := st.(sendWin := st.sendWin + c)]),
                                   CODE_FLOW_CONTROL)))
  {
    hide WireOk, EncodeAll, Tr, TotalData, LastSyn, TotalIn, Hear;
    var st := n.s.streams[sid];
    var n' := n.(s := RaiseFatal(n.s.(streams := n.s.streams[sid := st.(sendWin := st.sendWin + c)]),
                                 CODE_FLOW_CONTROL));
    HearAppend(Log(n), Fatal(CODE_FLOW_CONTROL), SID_CONTROL);
    assert Log(n') == Log(n) + [Fatal(CODE_FLOW_CONTROL)];
    assert BlockedSet(n'.s.streams) == BlockedSet(n.s.streams);
    forall x: Sid ensures SidOk(n', x) {
      assert SidOk(n, x);
      HearAppend(Log(n), Fatal(CODE_FLOW_CONTROL), x);
    }
  }

  /** Credit for a stream that is not there changes only the history. */
  lemma UnknownCreditInv(n: Node, f: Frame)
    requires Inv(n) && !n.s.dead && n.s.helloSeen && IsCredit(f) && f.sid != SID_CONTROL && f.sid !in n.s.streams
    ensures Inv(n.(rcvd := n.rcvd + [f]))
  {
    hide WireOk, EncodeAll, Tr, TotalData, LastSyn, TotalIn, Hear;
    var n' := n.(rcvd := n.rcvd + [f]);
    TrAppend(n.rcvd, f, SID_CONTROL);
    TotalAppend(n.rcvd, f);
    LastSynAppend(n.rcvd, f);
    assert Log(n') == Log(n);
    forall x: Sid ensures SidOk(n', x) {
      assert SidOk(n, x);
      TrAppend(n.rcvd, f, x);
    }
  }

  lemma GrantShape(n: Node, f: Frame) returns (wake: bool)
    requires !n.s.dead && f.sid in n.s.streams && IsCredit(f)
    requires n.s.streams[f.sid].sendWin + Get32(f.payload, 0) <= WINDOW_LIMIT
    ensures var s1 := OnStreamCredit(n.s, f.sid, Get32(f.payload, 0));
            !s1.dead && s1.helloSeen == n.s.helloSeen && StreamGranted(n, n.(s := s1, rcvd := n.rcvd + [f]), f, wake)
  {
    hide Get32;
    var st := n.s.streams[f.sid];
    wake := st.blocked && st.sendWin + Get32(f.payload, 0) > 0 && n.s.sendWin > 0;
    assert n.s.events + [] == n.s.events;
    var st' := st.(sendWin := st.sendWin + Get32(f.payload, 0));
    assert wake ==>
        n.s.streams[f.sid := st'][f.sid := st'.(blocked := false)] == n.s.streams[f.sid := st'.(blocked := false)];
  }

  lemma StreamCreditInInv(n: Node, f: Frame)
    requires Inv(n) && !n.s.dead && n.s.helloSeen && IsCredit(f) && f.sid != SID_CONTROL
    ensures var s1 := OnStreamCredit(n.s, f.sid, Get32(f.payload, 0));
            && s1.helloSeen
            && Inv(n.(s := s1, rcvd := if s1.dead then n.rcvd else n.rcvd + [f]))
  {
    hide SessOk, SidOk, WireOk, EncodeAll, Get32;
    if f.sid !in n.s.streams {
      UnknownCreditInv(n, f);
    } else if n.s.streams[f.sid].sendWin + Get32(f.payload, 0) > WINDOW_LIMIT {
      OverflowInv(n, f.sid, Get32(f.payload, 0));
    } else {
      var wake := GrantShape(n, f);
      var n' := n.(s := OnStreamCredit(n.s, f.sid, Get32(f.payload, 0)), rcvd := n.rcvd + [f]);
      forall x: Sid ensures SidOk(n', x) {
        GrantedSid(n, n', f, wake, x);
      }
      GrantedSess(n, n', f, wake);
    }
  }

  // ---------------------------------------------------------------- WINDOW_UPDATE for the connection

  function Woken(st: Stream, visited: bool): Stream {
    if visited && st.blocked && st.sendWin > 0 then st.(blocked := false) else st
  }

  /** The sweep clears the flag of exactly the visited blocked streams with room, queues one WRITABLE
      for each, and keeps the counter in step. */
  ghost predicate Swept(s: Session, order: seq<Sid>, s': Session, es: seq<Event>) {
    && s' == s.(streams := s'.streams, blockedCount := s'.blockedCount, events := s.events + es)
    && s'.streams.Keys == s.streams.Keys
    && (forall x :: x in s.streams ==> s'.streams[x] == Woken(s.streams[x], x in order))
    && s'.blockedCount - |BlockedSet(s'.streams)| == s.blockedCount - |BlockedSet(s.streams)|
    && (forall e :: e in es ==> e.Writable?)
    && (forall x :: x in s.streams && s'.streams[x] != s.streams[x] ==> Writable(x) in es)
  }

  lemma WakeSwept(s: Session, sid: Sid) returns (es: seq<Event>)
    ensures Swept(s, [sid], Wake(s, sid), es)
  {
    hide BlockedSet;
    var s' := Wake(s, sid);
    if sid in s.streams && s.streams[sid].blocked && s.streams[sid].sendWin > 0 {
      es := [Writable(sid)];
      BlockedUpdate(s.streams, sid, s'.streams[sid]);
      BlockedHas(s.streams, sid);
    } else {
      es := [];
      assert s.events + es == s.events;
    }
  }

  lemma SweptTrans(s: Session, a: seq<Sid>, s1: Session, e1: seq<Event>, b: seq<Sid>, s2: Session, e2: seq<Event>)
    requires Swept(s, a, s1, e1) && Swept(s1, b, s2, e2)
    ensures Swept(s, a + b, s2, e1 + e2)
  {
    assert s2.events == s.events + (e1 + e2);
    forall x | x in s.streams
      ensures s2.streams[x] == Woken(s.streams[x], x in a + b)
      ensures s2.streams[x] != s.streams[x] ==> Writable(x) in e1 + e2
    {
      assert s1.streams[x] == Woken(s.streams[x], x in a);
      assert s2.streams[x] == Woken(s1.streams[x], x in b);
    }
  }

  lemma {:induction false} SweepSwept(s: Session, order: seq<Sid>) returns (es: seq<Event>)
    ensures Swept(s, order, Sweep(s, order), es)
    decreases |order|
  {
    if order == [] {
      es := [];
      assert s.events + es == s.events;
    } else {
      var e1 := WakeSwept(s, order[0]);
      var e2 := SweepSwept(Wake(s, order[0]), order[1..]);
      SweptTrans(s, [order[0]], Wake(s, order[0]), e1, order[1..], Sweep(s, order), e2);
      assert [order[0]] + order[1..] == order;
      es := e1 + e2;
    }
  }

  /** Connection credit: the window grows; if it reopens, every blocked stream with room is woken. */
  ghost predicate SessionGranted(n: Node, n': Node, f: Frame, order: seq<Sid>, es: seq<Event>)
    requires IsCredit(f)
  {
    && n' == n.(s := n'.s, rcvd := n.rcvd + [f])
    && Swept(n.s.(sendWin := n.s.sendWin + Get32(f.payload, 0)), order, n'.s, es)
    && (forall x :: x in n'.s.streams && n'.s.streams[x].blocked
                    ==> n'.s.streams[x].sendWin <= 0 || n'.s.sendWin <= 0)
  }

  lemma SessionGrantedSid(n: Node, n': Node, f: Frame, order: seq<Sid>, es: seq<Event>, x: Sid)
    requires IsCredit(f) && f.sid == SID_CONTROL && SidOk(n, x) && SessionGranted(n, n', f, order, es)
    ensures SidOk(n', x)
  {
    hide Tr, Hear, TotalIn, Get32;
    TrAppend(n.rcvd, f, x);
    HearMute(Log(n), es, x);
    assert Log(n') == Log(n) + es;
    if x in n.s.streams {
      assert n'.s.streams[x] == Woken(n.s.streams[x], x in order);
    }
  }

  lemma SessionGrantedSess(n: Node, n': Node, f: Frame, order: seq<Sid>, es: seq<Event>)
    requires IsCredit(f) && f.sid == SID_CONTROL && SessOk(n) && SessionGranted(n, n', f, order, es)
    requires !n.s.dead && n.s.helloSeen
    ensures SessOk(n')
  {
    hide Tr, TotalData, LastSyn, TotalIn, Hear, Get32;
    TrAppend(n.rcvd, f, SID_CONTROL);
    TotalAppend(n.rcvd, f);
    LastSynAppend(n.rcvd, f);
    HearMute(Log(n), es, SID_CONTROL);
    assert Log(n') == Log(n) + es;
  }
}
