/** The sending calls: mux_write, mux_close, mux_reset and mux_open keep Node.Inv. */
module NodeSend {
  import opened Wire
  import opened Codec
  import opened Session
  import opened Trace
  import opened Node
  import opened NodeSteps

  // ---------------------------------------------------------------- mux_write

  /** A DATA frame within both windows on a stream open for sending. */
  ghost predicate MaySend(n: Node, sid: Sid, p: seq<Byte>) {
    && !n.s.dead && sid in n.s.streams && !n.s.streams[sid].life.HalfLocal?
    && |p| <= n.s.streams[sid].sendWin && |p| <= n.s.sendWin
  }

  function Sent(n: Node, sid: Sid, p: seq<Byte>): Node
    requires sid in n.s.streams && |p| <= MAX_DATA_FRAME
  {
    Accept(n, sid, p).(s := SendChunk(n.s, sid, p).0)
  }

  lemma ChunkSid(n: Node, sid: Sid, p: seq<Byte>, x: Sid)
    requires SidOk(n, x) && MaySend(n, sid, p) && 0 < |p| <= MAX_DATA_FRAME && HasRoom(n.s, DataFrame(sid, p))
    ensures SidOk(Sent(n, sid, p), x)
  {
    hide Tr, Hear, Encode, GrowTo;
    TrAppend(n.s.wire, DataFrame(sid, p), x);
    assert Log(Sent(n, sid, p)) == Log(n);
  }

  lemma ChunkSess(n: Node, sid: Sid, p: seq<Byte>)
    requires SessOk(n) && MaySend(n, sid, p) && 0 < |p| <= MAX_DATA_FRAME && HasRoom(n.s, DataFrame(sid, p))
    requires sid != SID_CONTROL
    ensures SessOk(Sent(n, sid, p))
  {
    hide Tr, TotalData, LastSyn, TotalIn, Encode, GrowTo;
    var f := DataFrame(sid, p);
    TrAppend(n.s.wire, f, SID_CONTROL);
    TotalAppend(n.s.wire, f);
    LastSynAppend(n.s.wire, f);
    var n' := Sent(n, sid, p);
    assert Log(n') == Log(n);
    assert BlockedSet(n'.s.streams) == BlockedSet(n.s.streams);
  }

  lemma ChunkInv(n: Node, sid: Sid, p: seq<Byte>)
    requires Inv(n) && MaySend(n, sid, p) && 0 < |p| <= MAX_DATA_FRAME && HasRoom(n.s, DataFrame(sid, p))
    ensures Inv(Sent(n, sid, p))
  {
    hide SessOk, Encode, EncodeAll, GrowTo, WireOk, Tr, LastSyn, Hear, HasSyn, HasFin, HasRst, Get32, OddSid;
    FlagFacts();
    assert SidOk(n, sid);
    ChunkSess(n, sid, p);
    WireOkAppend(n.s.role, n.s.wire, DataFrame(sid, p));
    EncodeAppend(n.s.wire, DataFrame(sid, p));
    forall x: Sid ensures SidOk(Sent(n, sid, p), x) {
      ChunkSid(n, sid, p, x);
    }
  }

  /** What chunked transmission leaves: the stream still there, both windows debited by what was
      placed, and everything placed unless the session died. */
  ghost predicate SendAllPost(s: Session, sid: Sid, p: seq<Byte>, s1: Session, k: nat)
    requires sid in s.streams
  {
    && k <= |p|
    && s1.streams == s.streams[sid := s.streams[sid].(sendWin := s.streams[sid].sendWin - k)]
    && s1.sendWin == s.sendWin - k
    && s1.recvPending == s.recvPending && SameBase(s, s1)
    && OnlyDies(s, s1)
    && (!s1.dead ==> k == |p|)
  }

  lemma ChunkPost(s: Session, sid: Sid, p: seq<Byte>)
    requires sid in s.streams && |p| <= MAX_DATA_FRAME
    ensures var (s1, ok) := SendChunk(s, sid, p);
            SendAllPost(s, sid, p, s1, if ok then |p| else 0) && (!ok ==> s1.dead)
  {
    hide Encode, GrowTo;
    assert s.streams == s.streams[sid := s.streams[sid].(sendWin := s.streams[sid].sendWin - 0)];
  }

  lemma SendAllPostTrans(s: Session, sid: Sid, a: seq<Byte>, s1: Session, b: seq<Byte>, s2: Session, k: nat)
    requires sid in s.streams && SendAllPost(s, sid, a, s1, |a|) && SendAllPost(s1, sid, b, s2, k)
    ensures SendAllPost(s, sid, a + b, s2, |a| + k)
  {
  }

  lemma {:induction false} SendAllPostHolds(s: Session, sid: Sid, p: seq<Byte>)
    requires sid in s.streams
    ensures var (s1, k) := SendAll(s, sid, p); SendAllPost(s, sid, p, s1, k)
    decreases |p|
  {
    hide Encode, GrowTo, SendChunk;
    if |p| == 0 {
      assert s.streams == s.streams[sid := s.streams[sid].(sendWin := s.streams[sid].sendWin - 0)];
    } else {
      var c := Min(|p|, MAX_DATA_FRAME);
      var (s1, ok) := SendChunk(s, sid, p[..c]);
      ChunkPost(s, sid, p[..c]);
      if ok {
        SendAllPostHolds(s1, sid, p[c..]);
        var (s2, k) := SendAll(s1, sid, p[c..]);
        SendAllPostTrans(s, sid, p[..c], s1, p[c..], s2, k);
        assert p[..c] + p[c..] == p;
      }
    }
  }

  lemma {:induction false} SendAllInv(n: Node, sid: Sid, p: seq<Byte>)
    requires Inv(n) && MaySend(n, sid, p)
    ensures var (s1, k) := SendAll(n.s, sid, p); Inv(Accept(n, sid, p[..k]).(s := s1))
    decreases |p|
  {
    hide Inv, Encode, GrowTo, Accept;
    AcceptNone(n, sid);
    if |p| > 0 {
      var c := Min(|p|, MAX_DATA_FRAME);
      if HasRoom(n.s, DataFrame(sid, p[..c])) {
        ChunkInv(n, sid, p[..c]);
        var n1 := Sent(n, sid, p[..c]);
        SendAllInv(n1, sid, p[c..]);
        var (s1, k) := SendAll(n1.s, sid, p[c..]);
        AcceptTwice(n, sid, p, c, k);
        AcceptSent(n, sid, p[..c], n1.s, p[c..][..k], s1);
      } else {
        DieInv(n, CODE_INTERNAL);
      }
    }
  }

  lemma AcceptNone(n: Node, sid: Sid)
    ensures Accept(n, sid, []) == n
  {
  }

  lemma AcceptSent(n: Node, sid: Sid, p: seq<Byte>, s: Session, q: seq<Byte>, s1: Session)
    ensures Accept(Accept(n, sid, p).(s := s), sid, q).(s := s1) == Accept(Accept(n, sid, p), sid, q).(s := s1)
  {
    AcceptKeeps(Accept(n, sid, p), sid, q, s);
  }

  lemma AcceptKeeps(n: Node, sid: Sid, q: seq<Byte>, s: Session)
    ensures Accept(n.(s := s), sid, q) == Accept(n, sid, q).(s := s)
  {
  }

  lemma AcceptTwice(n: Node, sid: Sid, p: seq<Byte>, c: nat, k: nat)
    requires c + k <= |p|
    ensures Accept(n, sid, p[..c + k]) == Accept(Accept(n, sid, p[..c]), sid, p[c..][..k])
  {
    assert p[..c + k] == p[..c] + p[c..][..k];
    assert Wrote(n, sid) + p[..c + k] == Wrote(n, sid) + p[..c] + p[c..][..k];
  }

  lemma BlockInv(n: Node, sid: Sid)
    requires Inv(n) && sid in n.s.streams
    requires n.s.streams[sid].sendWin <= 0 || n.s.sendWin <= 0
    ensures Inv(n.(s := SetBlocked(n.s, sid, true)))
  {
    hide SessOk, WireOk, SidOk;
    forall x: Sid ensures SidOk(n.(s := SetBlocked(n.s, sid, true)), x) {
      BlockSid(n, sid, x);
    }
    BlockSess(n, sid);
  }

  lemma BlockSid(n: Node, sid: Sid, x: Sid)
    requires SidOk(n, x) && sid in n.s.streams
    requires n.s.streams[sid].sendWin <= 0 || n.s.sendWin <= 0
    ensures SidOk(n.(s := SetBlocked(n.s, sid, true)), x)
  {
    hide Tr, Hear, Encode, GrowTo;
    assert Log(n.(s := SetBlocked(n.s, sid, true))) == Log(n);
  }

  lemma BlockSess(n: Node, sid: Sid)
    requires SessOk(n) && sid in n.s.streams
    ensures SessOk(n.(s := SetBlocked(n.s, sid, true)))
  {
    hide Tr, TotalData, LastSyn, TotalIn, Used, Own, OddSid, BlobsFit;
    assert Log(n.(s := SetBlocked(n.s, sid, true))) == Log(n);
    BlockedUpdate(n.s.streams, sid, n.s.streams[sid].(blocked := true));
  }

  lemma WriteInv(n: Node, sid: Sid, p: seq<Byte>)
    requires Inv(n)
    ensures Inv(DoWrite(n, sid, p))
  {
    hide Inv, Encode, GrowTo;
    if !n.s.dead && sid in n.s.streams && !n.s.streams[sid].life.HalfLocal? {
      var room := Min(n.s.streams[sid].sendWin, n.s.sendWin);
      if room <= 0 {
        BlockInv(n, sid);
      } else {
        var q := p[..Min(|p|, room)];
        SendAllInv(n, sid, q);
        SendAllPostHolds(n.s, sid, q);
        var (s1, k) := SendAll(n.s, sid, q);
        assert p[..k] == q[..k];
        var n1 := Accept(n, sid, p[..k]).(s := s1);
        if k < |p| && (s1.streams[sid].sendWin <= 0 || s1.sendWin <= 0) {
          BlockInv(n1, sid);
        }
      }
    }
  }

  // ---------------------------------------------------------------- mux_close, mux_reset

  /** After a FIN the stream is half-closed, or gone when the peer had finished too. */
  function Finished(m: map<Sid, Stream>, sid: Sid): map<Sid, Stream>
    requires sid in m
  {
    if m[sid].life.HalfRemote? then m - {sid} else m[sid := m[sid].(life := HalfLocal)]
  }

  lemma FinSid(n: Node, n': Node, sid: Sid, x: Sid)
    requires SidOk(n, x) && sid in n.s.streams && !n.s.streams[sid].life.HalfLocal?
    requires n' == n.(s := n'.s)
    requires n'.s == n.s.(wire := n.s.wire + [FinFrame(sid)], streams := Finished(n.s.streams, sid),
                          blockedCount := n'.s.blockedCount, out := n'.s.out, cap := n'.s.cap)
    ensures SidOk(n', x)
  {
    hide Tr, Hear, Encode, GrowTo;
    TrAppend(n.s.wire, FinFrame(sid), x);
    assert Log(n') == Log(n);
  }

  lemma RstSid(n: Node, sid: Sid, code: U32, x: Sid)
    requires SidOk(n, x) && sid in n.s.streams && HasRoom(n.s, RstFrame(sid, code))
    ensures SidOk(n.(s := Remove(Emitted(n.s, RstFrame(sid, code)), sid)), x)
  {
    hide Tr, Hear, Encode, GrowTo;
    TrAppend(n.s.wire, RstFrame(sid, code), x);
    assert Log(n.(s := Remove(Emitted(n.s, RstFrame(sid, code)), sid))) == Log(n);
  }

  /** Emitting a FIN or RST on a live stream keeps the connection-level laws. */
  lemma EndSess(n: Node, f: Frame)
    requires SessOk(n) && IsData(f) && (f.flags == F_FIN || f.flags == F_RST)
    requires f.sid != SID_CONTROL && (f.flags == F_FIN ==> f.payload == [])
    ensures SessOk(n.(s := Emitted(n.s, f)))
  {
    hide Tr, TotalData, LastSyn, TotalIn, Encode, GrowTo;
    TrAppend(n.s.wire, f, SID_CONTROL);
    TotalAppend(n.s.wire, f);
    LastSynAppend(n.s.wire, f);
    assert Log(n.(s := Emitted(n.s, f))) == Log(n);
  }

  lemma RemoveSess(n: Node, sid: Sid)
    requires SessOk(n) && sid in n.s.streams
    ensures SessOk(n.(s := Remove(n.s, sid)))
  {
    hide Tr, TotalData, LastSyn, TotalIn, Encode, GrowTo;
    BlockedRemove(n.s.streams, sid);
    assert Log(n.(s := Remove(n.s, sid))) == Log(n);
    assert sid in BlockedSet(n.s.streams) <==> n.s.streams[sid].blocked;
  }

  lemma SetLifeSess(n: Node, sid: Sid, life: Life)
    requires SessOk(n) && sid in n.s.streams
    ensures SessOk(n.(s := n.s.(streams := n.s.streams[sid := n.s.streams[sid].(life := life)])))
  {
    hide Tr, TotalData, LastSyn, TotalIn, Encode, GrowTo;
    var m := n.s.streams[sid := n.s.streams[sid].(life := life)];
    assert BlockedSet(m) == BlockedSet(n.s.streams);
    assert Log(n.(s := n.s.(streams := m))) == Log(n);
  }

  /** On a live stream that has not finished sending, a FIN may follow; an RST always may. */
  lemma EndFollows(n: Node, sid: Sid, f: Frame)
    requires SidOk(n, sid) && sid in n.s.streams && !n.s.dead && f.sid == sid
    requires (f == FinFrame(sid) && !n.s.streams[sid].life.HalfLocal?) || exists code :: f == RstFrame(sid, code)
    ensures MayFollow(n.s.role, n.s.wire, f) && sid != SID_CONTROL
  {
    hide Tr, Hear, HasSyn, HasFin, HasRst, Get32, OddSid, LastSyn;
    FlagFacts();
  }

  lemma CloseInv(n: Node, sid: Sid)
    requires Inv(n)
    ensures Inv(DoClose(n, sid))
  {
    hide Inv, Encode, EncodeAll, GrowTo;
    if !n.s.dead && sid in n.s.streams && !n.s.streams[sid].life.HalfLocal? {
      if HasRoom(n.s, FinFrame(sid)) {
        FinInv(n, sid);
      } else {
        DieInv(n, CODE_INTERNAL);
      }
    }
  }

  lemma FinInv(n: Node, sid: Sid)
    requires Inv(n) && !n.s.dead && sid in n.s.streams && !n.s.streams[sid].life.HalfLocal?
    requires HasRoom(n.s, FinFrame(sid))
    ensures Inv(DoClose(n, sid))
  {
    hide SessOk, SidOk, Encode, EncodeAll, WireOk, MayFollow, DoClose, FinFrame, Finished;
    var n' := DoClose(n, sid);
    CloseShape(n, sid);
    assert SidOk(n, sid);
    EndFollows(n, sid, FinFrame(sid));
    forall x: Sid ensures SidOk(n', x) {
      FinSid(n, n', sid, x);
    }
    WireOkAppend(n.s.role, n.s.wire, FinFrame(sid));
    EncodeAppend(n.s.wire, FinFrame(sid));
    FinSess(n, sid);
  }

  lemma CloseShape(n: Node, sid: Sid)
    requires !n.s.dead && sid in n.s.streams && !n.s.streams[sid].life.HalfLocal? && HasRoom(n.s, FinFrame(sid))
    ensures var n', f := DoClose(n, sid), FinFrame(sid);
            && n' == n.(s := n'.s) && f.sid == sid
            && n'.s == n.s.(wire := n.s.wire + [f], streams := Finished(n.s.streams, sid),
                            blockedCount := n'.s.blockedCount, out := n.s.out + Encode(f), cap := n'.s.cap)
  {
    hide Encode, GrowTo;
  }

  lemma FinSess(n: Node, sid: Sid)
    requires SessOk(n) && !n.s.dead && sid in n.s.streams && !n.s.streams[sid].life.HalfLocal? && sid != SID_CONTROL
    requires HasRoom(n.s, FinFrame(sid))
    ensures SessOk(DoClose(n, sid))
  {
    hide SessOk, Encode, GrowTo;
    var f := FinFrame(sid);
    EndSess(n, f);
    if n.s.streams[sid].life.HalfRemote? {
      RemoveSess(n.(s := Emitted(n.s, f)), sid);
    } else {
      SetLifeSess(n.(s := Emitted(n.s, f)), sid, HalfLocal);
    }
  }

  /** A dead session may lose a record without a trace on the wire. */
  lemma DeadRemoveInv(n: Node, sid: Sid)
    requires Inv(n) && n.s.dead && sid in n.s.streams
    ensures Inv(n.(s := Remove(n.s, sid)))
  {
    hide SessOk, WireOk, Tr, Hear;
    var n' := n.(s := Remove(n.s, sid));
    assert Log(n') == Log(n);
    RemoveSess(n, sid);
    forall x: Sid ensures SidOk(n', x) {
      assert SidOk(n, x);
    }
  }

  lemma ResetInv(n: Node, sid: Sid, code: U32)
    requires Inv(n)
    ensures Inv(DoReset(n, sid, code))
  {
    hide Inv, Encode, GrowTo;
    if !n.s.dead && sid in n.s.streams {
      if HasRoom(n.s, RstFrame(sid, code)) {
        RstInv(n, sid, code);
      } else {
        DieInv(n, CODE_INTERNAL);
        DeadRemoveInv(n.(s := RaiseFatal(n.s, CODE_INTERNAL)), sid);
      }
      Regardless(n.(s := ResetStream(n.s, sid, code).0), n.told, n.cuts[sid := code]);
    }
  }

  lemma RstInv(n: Node, sid: Sid, code: U32)
    requires Inv(n) && !n.s.dead && sid in n.s.streams && HasRoom(n.s, RstFrame(sid, code))
    ensures Inv(n.(s := Remove(Emitted(n.s, RstFrame(sid, code)), sid)))
  {
    hide SessOk, SidOk, Encode, EncodeAll, GrowTo, WireOk, MayFollow;
    var f := RstFrame(sid, code);
    EndFollows(n, sid, f);
    forall x: Sid ensures SidOk(n.(s := Remove(Emitted(n.s, f), sid)), x) {
      RstSid(n, sid, code, x);
    }
    WireOkAppend(n.s.role, n.s.wire, f);
    EncodeAppend(n.s.wire, f);
    EndSess(n, f);
    RemoveSess(n.(s := Emitted(n.s, f)), sid);
  }

  // ---------------------------------------------------------------- mux_open

  /** A dialer has 2^31 odd ids; its library does not notice when they run out. */
  predicate IdsLeft(n: Node) { n.s.role.Dialer? ==> n.opens < 0x8000_0000 }

  lemma NextSid(n: Node)
    requires SessOk(n) && IdsLeft(n) && n.s.nextSid != SID_CONTROL
    ensures n.s.nextSid == First(n.s.role) + 2 * n.opens
    ensures Own(n.s.role, n.s.nextSid) && !Used(n, n.s.nextSid)
    ensures n.opens + 1 <= (if n.s.role.Dialer? then 0x8000_0000 else 0x7FFF_FFFF)
  {
    hide Tr, TotalData, LastSyn, TotalIn;
  }

  /** An id is allocated and its SYN emitted. */
  ghost predicate Opened(n: Node, n': Node, sid: Sid, meta: seq<Byte>)
    requires |meta| <= MAX_META
  {
    && n' == n.(s := n'.s, opens := n.opens + 1, openedAt := n'.openedAt, told := n'.told)
    && n'.s == n.s.(nextSid := (sid as int + 2) % U32_LIMIT, wire := n.s.wire + [SynFrame(sid, meta)],
                    streams := n.s.streams[sid := Fresh(n.s)], out := n'.s.out, cap := n'.s.cap)
  }

  lemma OpenSid(n: Node, n': Node, sid: Sid, meta: seq<Byte>, x: Sid)
    requires SidOk(n, x) && |meta| <= MAX_META && Opened(n, n', sid, meta)
    requires sid == First(n.s.role) + 2 * n.opens && Own(n.s.role, sid)
    ensures SidOk(n', x)
  {
    hide Tr, Hear;
    TrAppend(n.s.wire, SynFrame(sid, meta), x);
    assert Log(n') == Log(n);
  }

  lemma OpenSess(n: Node, n': Node, sid: Sid, meta: seq<Byte>)
    requires SessOk(n) && !n.s.dead && n.s.helloSeen && |meta| <= MAX_META && Opened(n, n', sid, meta)
    requires sid == First(n.s.role) + 2 * n.opens && n.s.nextSid == sid && sid !in n.s.streams
    requires n.opens + 1 <= (if n.s.role.Dialer? then 0x8000_0000 else 0x7FFF_FFFF)
    ensures SessOk(n')
  {
    hide Tr, TotalData, LastSyn, TotalIn;
    var f := SynFrame(sid, meta);
    TrAppend(n.s.wire, f, SID_CONTROL);
    TotalAppend(n.s.wire, f);
    LastSynAppend(n.s.wire, f);
    assert Log(n') == Log(n);
    assert BlockedSet(n'.s.streams) == BlockedSet(n.s.streams);
  }

  /** Allocation without a frame: the session is dead. */
  lemma OpenFailed(n: Node, n': Node)
    requires Inv(n) && !n.s.dead && n.s.helloSeen
    requires n' == n.(s := n'.s, opens := n.opens + 1)
    requires n'.s == RaiseFatal(n.s.(nextSid := (n.s.nextSid as int + 2) % U32_LIMIT), CODE_INTERNAL)
    requires n.s.nextSid == First(n.s.role) + 2 * n.opens
    requires n.opens + 1 <= (if n.s.role.Dialer? then 0x8000_0000 else 0x7FFF_FFFF)
    ensures Inv(n')
  {
    hide WireOk, Tr, TotalData, LastSyn, TotalIn, Hear;
    assert Log(n') == Log(n) + [Fatal(CODE_INTERNAL)];
    HearAppend(Log(n), Fatal(CODE_INTERNAL), SID_CONTROL);
    forall x: Sid ensures SidOk(n', x) {
      assert SidOk(n, x);
      HearAppend(Log(n), Fatal(CODE_INTERNAL), x);
    }
  }

  lemma OpenInv(n: Node, meta: seq<Byte>)
    requires Inv(n) && IdsLeft(n)
    ensures Inv(DoOpen(n, meta))
  {
    hide SessOk, SidOk, Encode, EncodeAll, GrowTo, WireOk, MayFollow, Tr, LastSyn, Hear, Own, Used;
    var (s1, r) := OpenStream(n.s, meta);
    if s1 != n.s {
      NextSid(n);
      var sid := n.s.nextSid;
      var f := SynFrame(sid, meta);
      var n' := DoOpen(n, meta);
      NotLive(n, sid);
      if HasRoom(n.s, f) {
        forall x: Sid ensures SidOk(n', x) {
          OpenSid(n, n', sid, meta, x);
        }
        OpenSess(n, n', sid, meta);
        SynFollows(n, f);
        WireOkAppend(n.s.role, n.s.wire, f);
        EncodeAppend(n.s.wire, f);
      } else {
        OpenFailed(n, n');
      }
    }
  }

  lemma NotLive(n: Node, sid: Sid)
    requires SidOk(n, sid) && !Used(n, sid)
    ensures sid !in n.s.streams
  {
    hide Tr, Hear, LiveOk;
  }

  lemma SynFollows(n: Node, f: Frame)
    requires SessOk(n) && SidOk(n, f.sid) && !Used(n, f.sid) && Own(n.s.role, f.sid)
    requires f.sid == First(n.s.role) + 2 * n.opens && Shape(f) && f.typ == T_DATA && f.flags == F_SYN
    ensures MayFollow(n.s.role, n.s.wire, f)
  {
    hide Tr, TotalData, LastSyn, TotalIn, Hear, Get32;
  }
}
