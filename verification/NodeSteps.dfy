/** Every host call and every received frame, from any peer, keeps the laws of Node.Inv. */
module NodeSteps {
  import opened Wire
  import opened Codec
  import opened Session
  import opened Trace
  import opened Node

  // ---------------------------------------------------------------- bookkeeping facts

  lemma EncodeAppend(w: seq<Frame>, f: Frame)
    ensures EncodeAll(w + [f]) == EncodeAll(w) + Encode(f)
  {
    assert (w + [f])[..|w|] == w;
  }

  lemma BlockedUpdate(m: map<Sid, Stream>, sid: Sid, st: Stream)
    ensures BlockedSet(m[sid := st]) == if st.blocked then BlockedSet(m) + {sid} else BlockedSet(m) - {sid}
  {
  }

  lemma BlockedHas(m: map<Sid, Stream>, sid: Sid)
    requires sid in m
    ensures sid in BlockedSet(m) <==> m[sid].blocked
  {
  }

  lemma BlockedRemove(m: map<Sid, Stream>, sid: Sid)
    ensures BlockedSet(m - {sid}) == BlockedSet(m) - {sid}
  {
  }

  /** The only event is the FATAL of a session that dies on a full output buffer. */
  ghost predicate OnlyDies(s: Session, s': Session) {
    || (s'.events == s.events && s'.dead == s.dead)
    || (!s.dead && s'.dead && s'.events == s.events + [Fatal(CODE_INTERNAL)])
  }

  /** The handshake state is untouched, and draining is not taken back. */
  predicate SameBase(s: Session, s': Session) {
    && s'.cfg == s.cfg && s'.role == s.role && s'.peerInit == s.peerInit && s'.peerMax == s.peerMax
    && s'.helloSeen == s.helloSeen && s'.helloSent == s.helloSent && s'.maxRemote == s.maxRemote
    && (s.localGoaway ==> s'.localGoaway)
  }

  predicate Control(f: Frame) { f.typ != T_DATA && f.typ != T_WINDOW_UPDATE && f.sid == SID_CONTROL }

  /** A step that touches no stream and no window: at most one control frame out, one in, and
      events that concern no stream bytes. */
  ghost predicate Quiet(n: Node, n': Node, tx: seq<Frame>, rx: seq<Frame>, es: seq<Event>) {
    && n'.s.role == n.s.role && n'.s.cfg == n.s.cfg
    && n'.s.peerInit == n.s.peerInit && n'.s.peerMax == n.s.peerMax
    && n'.s.sendWin == n.s.sendWin && n'.s.recvWin == n.s.recvWin && n'.s.recvPending == n.s.recvPending
    && n'.s.blockedCount == n.s.blockedCount && n'.s.streams == n.s.streams
    && n'.s.helloSeen == n.s.helloSeen && n'.s.nextSid == n.s.nextSid && n'.s.maxRemote == n.s.maxRemote
    && n'.wrote == n.wrote && n'.consumed == n.consumed && n'.consumedTotal == n.consumedTotal
    && n'.peer == n.peer && n'.opens == n.opens && n'.openedAt == n.openedAt
    && (n.s.dead ==> n'.s.dead)
    && |tx| <= 1 && |rx| <= 1
    && (forall f :: f in tx ==> Control(f) && Shape(f))
    && (forall f :: f in rx ==> Control(f) && n.rcvd != [])
    && (forall e :: e in es ==> Mute(e))
    && n'.s.wire == n.s.wire + tx && n'.rcvd == n.rcvd + rx && Log(n') == Log(n) + es
  }

  lemma QuietAppend(w: seq<Frame>, fs: seq<Frame>, sid: Sid)
    requires |fs| <= 1 && forall f :: f in fs ==> Control(f)
    ensures Tr(w + fs, sid) == Tr(w, sid) && TotalData(w + fs) == TotalData(w) && LastSyn(w + fs) == LastSyn(w)
  {
    hide Tr, TotalData, LastSyn, HasSyn, HasFin, HasRst, Get32;
    if fs == [] {
      assert w + fs == w;
    } else {
      assert fs == [fs[0]] && fs[0] in fs;
      TrAppend(w, fs[0], sid);
      TotalAppend(w, fs[0]);
      LastSynAppend(w, fs[0]);
    }
  }

  lemma QuietWire(role: Role, w: seq<Frame>, fs: seq<Frame>)
    requires WireOk(role, w) && |fs| <= 1 && forall f :: f in fs ==> Control(f) && Shape(f)
    ensures WireOk(role, w + fs)
  {
    if fs == [] {
      assert w + fs == w;
    } else {
      assert fs == [fs[0]] && fs[0] in fs;
      WireOkAppend(role, w, fs[0]);
    }
  }

  lemma QuietSid(n: Node, n': Node, tx: seq<Frame>, rx: seq<Frame>, es: seq<Event>, sid: Sid)
    requires SidOk(n, sid) && Quiet(n, n', tx, rx, es)
    ensures SidOk(n', sid)
  {
    hide Tr, Hear, TotalData, LastSyn, TotalIn;
    QuietAppend(n.s.wire, tx, sid);
    QuietAppend(n.rcvd, rx, sid);
    HearMute(Log(n), es, sid);
  }

  lemma QuietSess(n: Node, n': Node, tx: seq<Frame>, rx: seq<Frame>, es: seq<Event>)
    requires SessOk(n) && Quiet(n, n', tx, rx, es)
    ensures SessOk(n')
  {
    hide Tr, Hear, TotalData, LastSyn, TotalIn;
    QuietAppend(n.s.wire, tx, SID_CONTROL);
    QuietAppend(n.rcvd, rx, SID_CONTROL);
    HearMute(Log(n), es, SID_CONTROL);
    assert rx != [] ==> rx[0] in rx;
  }

  lemma QuietInv(n: Node, n': Node, tx: seq<Frame>, rx: seq<Frame>, es: seq<Event>)
    requires Inv(n) && Quiet(n, n', tx, rx, es) && OutOk(n')
    ensures Inv(n')
  {
    QuietWire(n.s.role, n.s.wire, tx);
    forall sid: Sid ensures SidOk(n', sid) {
      QuietSid(n, n', tx, rx, es, sid);
    }
    QuietSess(n, n', tx, rx, es);
  }

  /** A call that emits one control frame, or dies trying. */
  lemma QuietEmit(n: Node, f: Frame)
    requires Inv(n) && Control(f) && Shape(f)
    ensures Inv(n.(s := Emit(n.s, f).0))
  {
    hide SessOk, SidOk, WireOk, Encode, EncodeAll, GrowTo;
    var n' := n.(s := Emit(n.s, f).0);
    EncodeAppend(n.s.wire, f);
    if HasRoom(n.s, f) {
      assert Log(n') == Log(n) + [];
      QuietInv(n, n', [f], [], []);
    } else {
      DieInv(n, CODE_INTERNAL);
    }
  }

  lemma DieInv(n: Node, code: U32)
    requires Inv(n)
    ensures Inv(n.(s := RaiseFatal(n.s, code)))
  {
    hide SessOk, SidOk, WireOk, Encode, EncodeAll, GrowTo;
    var n' := n.(s := RaiseFatal(n.s, code));
    var es := if n.s.dead then [] else [Fatal(code)];
    assert Log(n') == Log(n) + es;
    assert n'.s.wire == n.s.wire + [] && n'.rcvd == n.rcvd + [];
    QuietInv(n, n', [], [], es);
  }

  /** The session laws do not depend on what was told and cut. */
  lemma Regardless(n: Node, told: seq<Event>, cuts: map<Sid, U32>)
    requires Inv(n)
    ensures Inv(n.(told := told, cuts := cuts))
  {
    hide WireOk, EncodeAll, Tr, TotalData, LastSyn, TotalIn, Hear;
    var n' := n.(told := told, cuts := cuts);
    assert Log(n') == Log(n);
    forall x: Sid ensures SidOk(n', x) {
      assert SidOk(n, x);
    }
  }

  lemma CapacityInv(n: Node, w: U32)
    requires Inv(n)
    ensures Inv(DoCapacity(n, w))
  {
    hide SessOk, SidOk, WireOk, Encode, EncodeAll, GrowTo;
    if !n.s.dead {
      QuietEmit(n, Frame(T_CAPACITY, 0, SID_CONTROL, Put32(w)));
      Regardless(n.(s := SendCapacity(n.s, w).0), DoCapacity(n, w).told, n.cuts);
    }
  }

  lemma GoAwayInv(n: Node, reason: U32)
    requires Inv(n)
    ensures Inv(DoGoAway(n, reason))
  {
    hide SessOk, SidOk, WireOk, Encode, EncodeAll, GrowTo;
    if !n.s.dead {
      var n1 := n.(s := n.s.(localGoaway := true));
      assert n.s.wire + [] == n.s.wire && n.rcvd + [] == n.rcvd && Log(n) + [] == Log(n);
      QuietInv(n, n1, [], [], []);
      QuietEmit(n1, Frame(T_GOAWAY, 0, SID_CONTROL, Put32(reason) + Put32(n.s.maxRemote)));
      Regardless(n.(s := SendGoAway(n.s, reason).0), DoGoAway(n, reason).told, n.cuts);
    }
  }

  lemma TimerOnly(n: Node, t: Timer)
    requires Inv(n)
    ensures Inv(n.(s := n.s.(timer := t)))
  {
    hide SessOk, SidOk, WireOk, Encode, EncodeAll, GrowTo;
    assert n.s.wire + [] == n.s.wire && n.rcvd + [] == n.rcvd && Log(n) + [] == Log(n);
    QuietInv(n, n.(s := n.s.(timer := t)), [], [], []);
  }

  lemma TimerInv(n: Node, now: nat)
    requires Inv(n)
    ensures Inv(DoTimer(n, now))
  {
    hide SessOk, SidOk, WireOk, Encode, EncodeAll, GrowTo;
    var s1 := OnTimer(n.s, now).0;
    if n.s.dead || n.s.cfg.heartbeatMs == 0 {
    } else if !n.s.timer.started {
      TimerOnly(n, s1.timer);
    } else if PeerSilent(n.s, now) {
      DieInv(n, CODE_INTERNAL);
    } else if now >= n.s.timer.dueMs {
      var f := PingFrame(n.s.timer.nonce);
      QuietEmit(n, f);
      TimerOnly(n.(s := Emit(n.s, f).0), s1.timer);
    }
  }

  lemma AdvanceInv(n: Node, k: nat)
    requires Inv(n)
    ensures Inv(DoAdvance(n, k))
  {
    hide SessOk, SidOk, WireOk, Encode, EncodeAll, GrowTo;
    var n' := DoAdvance(n, k);
    assert n.s.wire + [] == n.s.wire && n.rcvd + [] == n.rcvd && Log(n') == Log(n) + [];
    var m := Min(k, |n.s.out|);
    assert n.s.out == n.s.out[..m] + n.s.out[m..];
    QuietInv(n, n', [], [], []);
  }

  lemma PopInv(n: Node)
    requires Inv(n)
    ensures Inv(DoPop(n))
    ensures Log(DoPop(n)) == Log(n)
  {
    hide SessOk, SidOk, WireOk, Encode, EncodeAll, GrowTo;
    var n' := DoPop(n);
    assert Log(n') == Log(n) + [];
    assert n.s.wire + [] == n.s.wire && n.rcvd + [] == n.rcvd;
    QuietInv(n, n', [], [], []);
  }
}
