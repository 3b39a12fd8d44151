/** mux_consume: crediting keeps Node.Inv and leaves less than half a window pending. */
module NodeConsume {
  import opened Wire
  import opened Codec
  import opened Session
  import opened Trace
  import opened Node
  import opened NodeSteps

  lemma CreditValue(sid: Sid, c: U32)
    ensures IsCredit(CreditFrame(sid, c)) && Get32(CreditFrame(sid, c).payload, 0) == c
  {
    assert [] + Put32(c) + [] == Put32(c);
    Word32RoundTrip([], c, []);
  }

  /** Emitting touches the output and, when that is full, kills the session; nothing else. */
  lemma EmitKeeps(s: Session, f: Frame)
    ensures var (s1, ok) := Emit(s, f);
            && s1.streams == s.streams && SameBase(s, s1)
            && s1.recvWin == s.recvWin && s1.recvPending == s.recvPending
            && OnlyDies(s, s1) && (!ok ==> s1.dead) && (ok ==> s1.events == s.events && s1.dead == s.dead)
  {
    hide Encode, GrowTo;
  }

  lemma DiesThen(s: Session, s1: Session, s2: Session)
    requires s1.events == s.events && s1.dead == s.dead
    ensures OnlyDies(s1, s2) ==> OnlyDies(s, s2)
    ensures s2 == s1 ==> OnlyDies(s, s2)
  {
  }

  // ---------------------------------------------------------------- connection credit

  /** One sid-0 WINDOW_UPDATE: the window grows by exactly what goes on the wire. */
  ghost predicate SessionCredited(n: Node, n': Node, c: U32) {
    && n' == n.(s := n'.s)
    && n'.s == n.s.(wire := n.s.wire + [CreditFrame(SID_CONTROL, c)], recvWin := n.s.recvWin + c,
                    recvPending := n.s.recvPending - c, out := n'.s.out, cap := n'.s.cap)
  }

  lemma SessionCreditSid(n: Node, n': Node, c: U32, x: Sid)
    requires SidOk(n, x) && SessionCredited(n, n', c)
    ensures SidOk(n', x)
  {
    hide Tr, Hear;
    TrAppend(n.s.wire, CreditFrame(SID_CONTROL, c), x);
    CreditValue(SID_CONTROL, c);
    assert Log(n') == Log(n);
  }

  lemma SessionCreditSess(n: Node, n': Node, c: U32)
    requires SessOk(n) && SessionCredited(n, n', c) && c <= n.s.recvPending
    ensures SessOk(n')
  {
    hide Tr, TotalData, LastSyn, TotalIn;
    var f := CreditFrame(SID_CONTROL, c);
    TrAppend(n.s.wire, f, SID_CONTROL);
    TotalAppend(n.s.wire, f);
    LastSynAppend(n.s.wire, f);
    CreditValue(SID_CONTROL, c);
    assert Log(n') == Log(n);
  }

  lemma SessionCreditInv(n: Node, n': Node, c: U32)
    requires Inv(n) && SessionCredited(n, n', c) && 0 < c <= n.s.recvPending && OutOk(n')
    ensures Inv(n')
  {
    hide SessOk, SidOk, EncodeAll, WireOk;
    forall x: Sid ensures SidOk(n', x) {
      SessionCreditSid(n, n', c, x);
    }
    SessionCreditSess(n, n', c);
    CreditFollows(n.s.role, n.s.wire, c);
    WireOkAppend(n.s.role, n.s.wire, CreditFrame(SID_CONTROL, c));
  }

  lemma CreditFollows(role: Role, w: seq<Frame>, c: U32)
    requires c > 0
    ensures MayFollow(role, w, CreditFrame(SID_CONTROL, c))
  {
    hide Tr, LastSyn;
    CreditValue(SID_CONTROL, c);
  }

  /** After crediting nothing is pending, unless the session died; no stream is touched. */
  lemma {:induction false} EmitSessionCreditPost(s: Session)
    ensures var s1 := EmitSessionCredit(s);
            && s1.streams == s.streams && SameBase(s, s1) && OnlyDies(s, s1)
            && (!s1.dead ==> s1.recvPending <= 0)
    decreases s.recvPending
  {
    hide Emit;
    if s.recvPending > 0 {
      var c := CreditChunk(s.recvPending);
      var (s1, ok) := Emit(s, CreditFrame(SID_CONTROL, c));
      EmitKeeps(s, CreditFrame(SID_CONTROL, c));
      if ok {
        EmitSessionCreditPost(s1.(recvWin := s1.recvWin + c, recvPending := s1.recvPending - c));
      }
    }
  }

  lemma {:induction false} EmitSessionCreditInv(n: Node)
    requires Inv(n)
    ensures Inv(n.(s := EmitSessionCredit(n.s)))
    decreases n.s.recvPending
  {
    hide Inv, Encode, EncodeAll, GrowTo;
    if n.s.recvPending > 0 {
      var c := CreditChunk(n.s.recvPending);
      var f := CreditFrame(SID_CONTROL, c);
      if HasRoom(n.s, f) {
        var s1 := Emitted(n.s, f);
        var n1 := n.(s := s1.(recvWin := s1.recvWin + c, recvPending := s1.recvPending - c));
        EmittedOut(n, n1, f);
        SessionCreditInv(n, n1, c);
        EmitSessionCreditInv(n1);
        assert n.(s := EmitSessionCredit(n1.s)) == n1.(s := EmitSessionCredit(n1.s));
      } else {
        DieInv(n, CODE_INTERNAL);
      }
    }
  }

  lemma EmittedOut(n: Node, n': Node, f: Frame)
    requires Inv(n) && n'.s.wire == n.s.wire + [f] && n'.s.out == n.s.out + Encode(f) && n'.taken == n.taken
    ensures OutOk(n')
  {
    hide SessOk, SidOk, WireOk, Encode, EncodeAll;
    EncodeAppend(n.s.wire, f);
  }

  // ---------------------------------------------------------------- stream credit

  ghost predicate StreamCredited(n: Node, n': Node, sid: Sid, c: U32)
    requires sid in n.s.streams
  {
    var st := n.s.streams[sid];
    && n' == n.(s := n'.s)
    && n'.s == n.s.(wire := n.s.wire + [CreditFrame(sid, c)],
                    streams := n.s.streams[sid := st.(recvWin := st.recvWin + c, recvPending := st.recvPending - c)],
                    out := n'.s.out, cap := n'.s.cap)
  }

  lemma StreamCreditSid(n: Node, n': Node, sid: Sid, c: U32, x: Sid)
    requires sid in n.s.streams && SidOk(n, x) && StreamCredited(n, n', sid, c) && c <= n.s.streams[sid].recvPending
    ensures SidOk(n', x)
  {
    hide Tr, Hear;
    TrAppend(n.s.wire, CreditFrame(sid, c), x);
    CreditValue(sid, c);
    assert Log(n') == Log(n);
  }

  lemma StreamCreditSess(n: Node, n': Node, sid: Sid, c: U32)
    requires sid in n.s.streams && SessOk(n) && StreamCredited(n, n', sid, c) && sid != SID_CONTROL
    ensures SessOk(n')
  {
    hide Tr, TotalData, LastSyn, TotalIn;
    var f := CreditFrame(sid, c);
    TrAppend(n.s.wire, f, SID_CONTROL);
    TotalAppend(n.s.wire, f);
    LastSynAppend(n.s.wire, f);
    assert Log(n') == Log(n);
    assert BlockedSet(n'.s.streams) == BlockedSet(n.s.streams);
  }

  lemma StreamCreditInv(n: Node, n': Node, sid: Sid, c: U32)
    requires sid in n.s.streams && Inv(n) && StreamCredited(n, n', sid, c)
    requires 0 < c <= n.s.streams[sid].recvPending && OutOk(n')
    ensures Inv(n')
  {
    hide SessOk, EncodeAll, WireOk, Tr, Hear, LastSyn;
    assert SidOk(n, sid);
    CreditValue(sid, c);
    forall x: Sid ensures SidOk(n', x) {
      StreamCreditSid(n, n', sid, c, x);
    }
    StreamCreditSess(n, n', sid, c);
    WireOkAppend(n.s.role, n.s.wire, CreditFrame(sid, c));
  }

  /** What crediting one stream leaves behind. */
  ghost predicate CreditPost(s: Session, sid: Sid, s1: Session)
    requires sid in s.streams
  {
    && SameBase(s, s1) && s1.recvPending == s.recvPending && s1.streams.Keys == s.streams.Keys
    && (forall x :: x in s.streams && x != sid ==> s1.streams[x] == s.streams[x])
    && s1.streams[sid] == s.streams[sid].(recvWin := s1.streams[sid].recvWin,
        recvPending := s1.streams[sid].recvPending)
    && OnlyDies(s, s1)
  }

  lemma {:induction false} EmitStreamCreditPost(s: Session, sid: Sid)
    requires sid in s.streams
    ensures var s1 := EmitStreamCredit(s, sid);
            CreditPost(s, sid, s1) && (!s1.dead ==> s1.streams[sid].recvPending <= 0)
    decreases s.streams[sid].recvPending
  {
    hide Emit, CreditFrame, OnlyDies;
    DiesThen(s, s, s);
    var st := s.streams[sid];
    if st.recvPending > 0 {
      var c := CreditChunk(st.recvPending);
      var f := CreditFrame(sid, c);
      var (s1, ok) := Emit(s, f);
      EmitKeeps(s, f);
      if ok {
        var s2 := s1.(streams := s1.streams[sid := st.(recvWin := st.recvWin + c, recvPending := st.recvPending - c)]);
        EmitStreamCreditPost(s2, sid);
        DiesThen(s, s2, EmitStreamCredit(s2, sid));
      }
    }
  }

  lemma {:induction false} EmitStreamCreditInv(n: Node, sid: Sid)
    requires Inv(n) && sid in n.s.streams
    ensures Inv(n.(s := EmitStreamCredit(n.s, sid)))
    decreases n.s.streams[sid].recvPending
  {
    hide Inv, Encode, EncodeAll, GrowTo;
    var st := n.s.streams[sid];
    if st.recvPending > 0 {
      var c := CreditChunk(st.recvPending);
      var f := CreditFrame(sid, c);
      if HasRoom(n.s, f) {
        var s1 := Emitted(n.s, f);
        var n1 := n.(s := s1.(streams := s1.streams[sid := st.(recvWin := st.recvWin + c,
                                                                recvPending := st.recvPending - c)]));
        EmittedOut(n, n1, f);
        StreamCreditInv(n, n1, sid, c);
        EmitStreamCreditInv(n1, sid);
        assert n.(s := EmitStreamCredit(n1.s, sid)) == n1.(s := EmitStreamCredit(n1.s, sid));
      } else {
        DieInv(n, CODE_INTERNAL);
      }
    }
  }

  // ---------------------------------------------------------------- the call

  lemma AddPendingInv(n: Node, k: nat)
    requires Inv(n)
    ensures Inv(n.(s := AddPending(n.s, k), consumedTotal := n.consumedTotal + k))
  {
    hide WireOk, EncodeAll, Tr, TotalData, LastSyn, TotalIn, Hear;
    var n' := n.(s := AddPending(n.s, k), consumedTotal := n.consumedTotal + k);
    assert Log(n') == Log(n);
    forall x: Sid ensures SidOk(n', x) {
      assert SidOk(n, x);
    }
  }

  lemma AddStreamPendingInv(n: Node, sid: Sid, k: nat)
    requires Inv(n) && sid in n.s.streams
    ensures Inv(n.(s := AddStreamPending(n.s, sid, k), consumed := n.consumed[sid := Consumed(n, sid) + k]))
  {
    hide WireOk, EncodeAll, Tr, TotalData, LastSyn, TotalIn, Hear;
    var n' := n.(s := AddStreamPending(n.s, sid, k), consumed := n.consumed[sid := Consumed(n, sid) + k]);
    assert Log(n') == Log(n);
    assert BlockedSet(n'.s.streams) == BlockedSet(n.s.streams);
    forall x: Sid ensures SidOk(n', x) {
      assert SidOk(n, x);
    }
  }

  lemma CreditSessionInv(n: Node)
    requires Inv(n)
    ensures Inv(n.(s := CreditSession(n.s)))
    ensures var s1 := CreditSession(n.s);
            && s1.streams == n.s.streams && SameBase(n.s, s1) && OnlyDies(n.s, s1)
            && (!s1.dead ==> s1.recvPending <= 0 || 2 * s1.recvPending < n.s.cfg.sessionWindow)
  {
    hide Inv;
    EmitSessionCreditInv(n);
    EmitSessionCreditPost(n.s);
  }

  lemma CreditStreamInv(n: Node, sid: Sid)
    requires Inv(n) && sid in n.s.streams
    ensures Inv(n.(s := CreditStream(n.s, sid)))
    ensures var s1 := CreditStream(n.s, sid);
            && CreditPost(n.s, sid, s1)
            && (!s1.dead ==> s1.streams[sid].recvPending <= 0
                             || 2 * s1.streams[sid].recvPending < n.s.cfg.initWindow)
  {
    hide Inv;
    EmitStreamCreditInv(n, sid);
    EmitStreamCreditPost(n.s, sid);
  }

  lemma NonNegative(n: Node)
    requires Inv(n)
    ensures n.s.recvPending >= 0 && forall x :: x in n.s.streams ==> n.s.streams[x].recvPending >= 0
  {
    hide WireOk, Tr, TotalData, LastSyn, TotalIn, Hear;
    forall x | x in n.s.streams ensures n.s.streams[x].recvPending >= 0 {
      assert SidOk(n, x);
    }
  }

  lemma ConsumeInv(n: Node, sid: Sid, k: nat)
    requires Inv(n)
    ensures Inv(DoConsume(n, sid, k))
    ensures MarksOk(n) ==> MarksOk(DoConsume(n, sid, k))
  {
    hide Inv, CreditSession, CreditStream;
    var n' := DoConsume(n, sid, k);
    if !n.s.dead && k > 0 {
      AddPendingInv(n, k);
      var n1 := n.(s := AddPending(n.s, k), consumedTotal := n.consumedTotal + k);
      CreditSessionInv(n1);
      var n2 := n1.(s := CreditSession(n1.s));
      NonNegative(n2);
      if sid in n2.s.streams {
        AddStreamPendingInv(n2, sid, k);
        var n3 := n2.(s := AddStreamPending(n2.s, sid, k), consumed := n2.consumed[sid := Consumed(n2, sid) + k]);
        CreditStreamInv(n3, sid);
        assert n' == n3.(s := CreditStream(n3.s, sid));
        NonNegative(n');
      } else {
        assert n' == n2;
      }
    } else if !n.s.dead {
      ConsumeNothing(n, sid);
    }
  }

  lemma ConsumeNothing(n: Node, sid: Sid)
    requires Inv(n)
    ensures Inv(NoteConsumed(n, sid, 0))
  {
    hide WireOk, EncodeAll, Tr, TotalData, LastSyn, TotalIn, Hear;
    var n' := NoteConsumed(n, sid, 0);
    assert Log(n') == Log(n);
    forall x: Sid ensures SidOk(n', x) {
      assert SidOk(n, x);
    }
  }
}
