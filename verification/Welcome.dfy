/** Whether a SYN is let in: if only one side opens streams, its own check of the peer's MAX_STREAMS is enough. */
module Welcome {
  import opened Commons
  import opened Wire
  import opened Codec
  import opened Session
  import opened Trace
  import opened Node
  import opened NodeConsume
  import opened NodeReceive
  import opened NodeRuns
  import opened NodeHonest
  import opened Closing
  import opened Notices
  import opened PairLaws
  import opened Pair

  // ---------------------------------------------------------------- what frames leave alone

  lemma CreditKeepsPeer(s: Session, f: Frame, order: seq<Sid>)
    ensures OnWindowUpdate(s, f, order).peerMax == s.peerMax
            && (s.localGoaway ==> OnWindowUpdate(s, f, order).localGoaway)
  {
    hide Sweep, Get32;
    if |f.payload| == 4 {
      var es := SweepSwept(s.(sendWin := s.sendWin + Get32(f.payload, 0)), order);
    }
  }

  lemma SynKeepsPeer(s: Session, f: Frame)
    ensures OnSyn(s, f).peerMax == s.peerMax && (s.localGoaway ==> OnSyn(s, f).localGoaway)
  {
    hide Emit, SynIllegal, Refuses;
    EmitKeeps(s, RstFrame(f.sid, CODE_REFUSED));
  }

  lemma AbortKeepsPeer(s: Session, sid: Sid, code: U32)
    requires sid in s.streams
    ensures AbortStream(s, sid, code).peerMax == s.peerMax && (s.localGoaway ==> AbortStream(s, sid, code).localGoaway)
  {
    hide Emit;
    EmitKeeps(s, RstFrame(sid, code));
  }

  lemma DataKeepsPeer(s: Session, f: Frame)
    ensures OnStreamData(s, f).peerMax == s.peerMax && (s.localGoaway ==> OnStreamData(s, f).localGoaway)
  {
    hide AbortStream, Get32;
    if f.sid in s.streams {
      AbortKeepsPeer(s, f.sid, CODE_PROTOCOL);
      AbortKeepsPeer(s, f.sid, CODE_FLOW_CONTROL);
    }
  }

  lemma HelloKeepsAway(s: Session, f: Frame, ack: bool)
    requires GoodConfig(s.cfg)
    ensures s.localGoaway ==> OnHello(s, f, ack).localGoaway
  {
    hide ReadTlvs, Encode, GrowTo, HelloPayload;
  }

  /** Only a greeting touches the peer's parameters, and no frame takes draining back. */
  lemma ProcessKeepsPeer(s: Session, f: Frame, order: seq<Sid>)
    requires GoodConfig(s.cfg)
    ensures !IsHello(f) ==> Process(s, f, order).peerMax == s.peerMax
    ensures s.localGoaway ==> Process(s, f, order).localGoaway
  {
    hide OnSyn, OnStreamData, OnWindowUpdate, OnHello, Encode, GrowTo, Get32;
    HelloKeepsAway(s, f, false);
    HelloKeepsAway(s, f, true);
    CreditKeepsPeer(s, f, order);
    SynKeepsPeer(s, f);
    DataKeepsPeer(s, f);
  }

  // ---------------------------------------------------------------- the cap

  /** No SYN before the greeting. */
  lemma NoEarlySyn(n: Node, k: nat)
    requires Inv(n) && !n.s.helloSeen && k < |n.s.wire|
    ensures !IsSyn(n.s.wire[k])
  {
    hide FlowOk, EncodeAll, TotalData, LastSyn, Hear, Tr;
    if IsSyn(n.s.wire[k]) {
      var sid := n.s.wire[k].sid;
      assert MayFollow(n.s.role, n.s.wire[..k], n.s.wire[k]);
      assert SidOk(n, sid);
      NotThere(n.s.wire, k, sid);
    }
  }

  lemma InSids(w: seq<Frame>, sid: Sid)
    requires Tr(w, sid).syn
    ensures sid in Sids(w)
    decreases |w|
  {
    if |w| > 0 {
      var p, f := w[..|w| - 1], w[|w| - 1];
      assert f in w && (forall g :: g in p ==> g in w);
      if Tr(p, sid).syn {
        InSids(p, sid);
      }
    }
  }

  /** What is over stays over as more frames are known, whichever end looks. */
  lemma OverGrows(w: seq<Frame>, w': seq<Frame>, r: seq<Frame>, r': seq<Frame>, sid: Sid)
    requires w <= w' && r <= r' && Over(Tr(w, sid), Tr(r, sid))
    ensures Over(Tr(r', sid), Tr(w', sid))
  {
    hide Tr;
    TrPrefix(w, w', sid);
    TrPrefix(r, r', sid);
  }

  /** A stream `y` still has, opened by `x`, was standing when `x` emitted any later SYN. */
  lemma LiveWasStanding(x: Node, y: Node, k: nat, r: nat, sid: Sid)
    requires Linked(x, y) && Exact(y) && y.opens == 0 && sid in y.s.streams
    requires k == |y.rcvd| < |x.s.wire| && r <= |x.rcvd|
    ensures sid in Standing(x.s.wire[..k], x.rcvd[..r])
  {
    hide HelloOk, FlowOk, WireOk, EncodeAll, Tr, Hear, LastSyn;
    assert SidOk(y, sid) && ExactSid(y, sid);
    assert x.s.wire[..k] == y.rcvd;
    InSids(y.rcvd, sid);
    if Over(Tr(y.rcvd, sid), Tr(x.rcvd[..r], sid)) {
      assert x.rcvd[..r] <= y.s.wire;
      OverGrows(y.rcvd, y.rcvd, x.rcvd[..r], y.s.wire, sid);
    }
  }

  lemma CapNotReached(x: Node, y: Node)
    requires Linked(x, y) && Good(x) && Good(y) && y.opens == 0
    requires |y.rcvd| < |x.s.wire| && IsSyn(NextFrame(x, y))
    ensures |y.s.streams| < y.s.cfg.maxStreams
  {
    hide Inv, MarksOk, HostOk, NoViolation, DropOk, ClosedOnce, Welcomed, Noted, Exact, Introduced, Standing;
    var k := |y.rcvd|;
    var r := x.openedAt[x.s.wire[k].sid].1;
    forall sid | sid in y.s.streams ensures sid in Standing(x.s.wire[..k], x.rcvd[..r]) {
      LiveWasStanding(x, y, k, r, sid);
    }
    SubsetSize(y.s.streams.Keys, Standing(x.s.wire[..k], x.rcvd[..r]));
    assert |y.s.streams.Keys| == |y.s.streams|;
    LinkedSym(x, y);
    OpenerGreeted(x, k);
    PeerKnown(y, x);
  }

  lemma OpenerGreeted(n: Node, k: nat)
    requires Inv(n) && k < |n.s.wire| && IsSyn(n.s.wire[k])
    ensures n.rcvd != []
  {
    hide FlowOk, EncodeAll, TotalData, LastSyn, Hear, Tr, WireOk;
    if n.rcvd == [] {
      if !n.s.helloSeen {
        NoEarlySyn(n, k);
      } else {
        DeadOpener(n, k);
      }
    }
  }

  /** A session that died on the greeting itself never opened anything. */
  lemma DeadOpener(n: Node, k: nat)
    requires Inv(n) && k < |n.s.wire| && n.s.helloSeen && n.rcvd == []
    ensures !IsSyn(n.s.wire[k])
  {
    hide FlowOk, EncodeAll, TotalData, LastSyn, Hear, Tr;
    assert MayFollow(n.s.role, n.s.wire[..k], n.s.wire[k]);
    assert SidOk(n, n.s.wire[k].sid);
    if IsSyn(n.s.wire[k]) {
      NotThere(n.s.wire, k, n.s.wire[k].sid);
    }
  }

  // ---------------------------------------------------------------- one frame

  lemma OneWelcomed(x: Node, y: Node, order: seq<Sid>)
    requires Ready(x, y) && Good(x) && Good(y) && GoodConfig(y.s.cfg)
    ensures Welcomed(Receive(y, NextFrame(x, y), order))
  {
    hide Inv, Exact, Introduced, HostOk, MarksOk, CapOk, ClosedOnce, Noted, DropOk, NoViolation, Process, NextFrame,
        Linked;
    var f := NextFrame(x, y);
    var n' := Receive(y, f, order);
    ProcessKeepsPeer(y.s, f, order);
    TidyProcess(y.s, f, order);
    if n'.opens == 0 && !n'.s.localGoaway {
      LogKept(y, n');
      if IsSyn(f) && !n'.s.dead {
        SynWelcomed(x, y, order);
      }
    }
  }

  lemma LogKept(n: Node, n': Node)
    requires n'.popped == n.popped && n.s.events <= n'.s.events
    ensures forall e :: e in Log(n) ==> e in Log(n')
  {
    assert n'.s.events == n.s.events + n'.s.events[|n.s.events|..];
  }

  lemma SynWelcomed(x: Node, y: Node, order: seq<Sid>)
    requires Ready(x, y) && Good(x) && Good(y) && GoodConfig(y.s.cfg) && IsSyn(NextFrame(x, y))
    requires y.opens == 0 && !y.s.localGoaway
    ensures var f := NextFrame(x, y); StreamOpened(f.sid, f.payload) in Log(Receive(y, f, order))
  {
    hide Inv, Exact, Introduced, HostOk, MarksOk, CapOk, ClosedOnce, Noted, DropOk, NoViolation, Receive, NextFrame,
      Linked, SynIllegal;
    var f := NextFrame(x, y);
    NextSynLegal(x, y);
    CapNotReached(x, y);
    var es := AdmitShape(y, f, order);
    var n' := Receive(y, f, order);
    assert n'.s.events[|y.s.events|] == StreamOpened(f.sid, f.payload);
    assert Log(n')[|y.popped| + |y.s.events|] == StreamOpened(f.sid, f.payload);
  }

  /** A legal SYN is let in if and only if the session is not draining and its streams, of either end, are below the
      cap. */
  lemma LetInExactly(s: Session, f: Frame, order: seq<Sid>)
    requires GoodConfig(s.cfg) && !s.dead && s.helloSeen && IsSyn(f) && !SynIllegal(s, f)
    ensures var s1 := Process(s, f, order);
            && s.events <= s1.events
            && (StreamOpened(f.sid, f.payload) in s1.events[|s.events|..]
                <==> !s.localGoaway && |s.streams| < s.cfg.maxStreams)
  {
    hide SynIllegal, OnStreamData, OnWindowUpdate, OnPing, OnGoAway, OnCapacity, OnHello, HasSyn, HasFin, HasRst, Emit;
    var s1 := Process(s, f, order);
    if Refuses(s) {
      EmitKeeps(s, RstFrame(f.sid, CODE_REFUSED));
    } else {
      assert s1.events[|s.events|..][0] == StreamOpened(f.sid, f.payload);
    }
  }
}
