/** A route on which bytes are cut off. An edge stream delivers two bytes and ends; the worker's connection
    window takes one of them; on STREAM_CLOSED the router closes the worker's stream behind it, and the other
    byte can never be sent. */
module CutOff {
  import opened Wire
  import opened Codec
  import opened Session
  import opened Node
  import opened NodeSend
  import opened NodeRuns
  import opened HostWake
  import opened Splice
  import opened Hosting
  import opened Finishing
  import opened RouterNet
  import opened RouterMemory
  import opened RouterLaws
  import opened RouterEnds
  import opened RouterLost
  import opened LostCredit

  // ---------------------------------------------------------------- one edge, one worker

  /** Both tunnels up, no route. */
  function Apart(e: Node, w: Node): Net {
    Net([Tunnel(e, true, map[], 0)], [Tunnel(w, true, map[], 0)], map[])
  }

  /** Edge stream 2 is spliced to worker stream 1, and `buf` waits for the worker. */
  function Spliced(e: Node, w: Node, buf: seq<Byte>): Net {
    Net([Tunnel(e, true, map[2 := 0], 0)], [Tunnel(w, true, map[1 := 0], 1)],
        map[0 := Route(0, 0, 2, 1, buf, [], false, false)])
  }

  lemma ApartSets(e: Node, w: Node, n: Node)
    ensures SetNode(Apart(e, w), Up, 0, n) == Apart(n, w) && SetNode(Apart(e, w), Down, 0, n) == Apart(e, n)
  {
  }

  lemma SplicedSets(e: Node, w: Node, buf: seq<Byte>, n: Node)
    ensures SetNode(Spliced(e, w, buf), Up, 0, n) == Spliced(n, w, buf)
    ensures SetNode(Spliced(e, w, buf), Down, 0, n) == Spliced(e, n, buf)
  {
  }

  lemma BothUp() returns (n: Node)
    ensures n == Start(Caller()) && Sound(Apart(n, n))
  {
    hide Sound, Caller;
    Begins();
    n := Start(Caller());
    var down := Tunnel(n, false, map[], 0);
    var net0 := Net([down], [down], map[]);
    EmptySound(net0);
    UpSound(net0, Up, 0, RAW, Dialer);
    var up := Tunnel(n, true, map[], 0);
    assert [down][0 := up] == [up];
    var net1 := Net([up], [down], map[]);
    UpSound(net1, Down, 0, RAW, Dialer);
  }

  // ---------------------------------------------------------------- the streams open

  /** The edge has greeted us and opened stream 2; both events are taken. */
  lemma EdgeOpens(n: Node) returns (e: Node, e': Node)
    requires n == Start(Caller()) && Sound(Apart(n, n))
    ensures Sound(Apart(e, n)) && e' == DoPop(e) && e.s.events == [StreamOpened(2, [])]
    ensures e.s.streams == map[2 := STREAM] && !e.s.dead && e.s.helloSeen && e.s.cfg == Resolve(RAW) && e.s.role.Dialer?
    ensures e.s.recvWin == DEFAULT_SESSION_WINDOW && e.s.recvPending == 0 && e.s.blockedCount == 0
  {
    hide Sound, Process, HelloPayload, Encode, GrowTo, SendHello, HelloParams;
    Begins();
    var c := Resolve(RAW);
    Greeted(n.s, c, true);
    var e1 := ApartEdge(n, n, Hello(c, true));
    EdgeAdmits(e1.s);
    var e2 := ApartEdge(e1, n, SynFrame(2, []));
    e := ApartPop(e2, n);
    e' := DoPop(e);
  }

  lemma EdgeAdmits(s: Session)
    requires GoodConfig(s.cfg) && s.helloSeen && s.role.Dialer? && s.streams == map[] && s.maxRemote == 0
    requires !s.localGoaway
    ensures Process(s, SynFrame(2, []), [])
            == Queue(s.(streams := map[2 := Fresh(s)], maxRemote := 2), StreamOpened(2, []))
  {
    FlagFacts();
    hide HasSyn, HasFin, HasRst;
  }

  lemma ApartEdge(e: Node, w: Node, f: Frame) returns (e': Node)
    requires Sound(Apart(e, w)) && GoodConfig(e.s.cfg) && !e.s.dead && e.s.streams == map[]
    ensures e' == Receive(e, f, []) && Sound(Apart(e', w))
  {
    hide Sound, Receive;
    SoundStep(Apart(e, w), Up, 0, PeerFrame(f, []));
    e' := Receive(e, f, []);
    ApartSets(e, w, e');
  }

  lemma ApartWorker(e: Node, w: Node, f: Frame) returns (w': Node)
    requires Sound(Apart(e, w)) && GoodConfig(w.s.cfg) && !w.s.dead && w.s.streams == map[]
    ensures w' == Receive(w, f, []) && Sound(Apart(e, w'))
  {
    hide Sound, Receive;
    SoundStep(Apart(e, w), Down, 0, PeerFrame(f, []));
    w' := Receive(w, f, []);
    ApartSets(e, w, w');
  }

  lemma ApartPop(e: Node, w: Node) returns (e': Node)
    requires Sound(Apart(e, w)) && e.s.events != [] && !e.s.events[0].StreamData? && !e.s.events[0].Writable?
    ensures e' == DoPop(e) && Sound(Apart(e', w))
  {
    hide Sound;
    PopOther(Apart(e, w), Up, 0);
    e' := DoPop(e);
    ApartSets(e, w, e');
  }

  /** The worker has greeted us with a connection window of one byte. */
  lemma WorkerGreets(e: Node, n: Node) returns (w: Node)
    requires n == Start(Caller()) && Sound(Apart(e, n))
    ensures Sound(Apart(e, w)) && Calm(w, Resolve(RAW), Dialer, map[], 1)
    ensures w.s.sendWin == 1 && w.s.peerInit == DEFAULT_INIT_WINDOW && w.s.peerMax == 1
    ensures w.s.nextSid == 1 && w.opens == 0 && w.s.blockedCount == 0 && |w.s.out| <= 832
  {
    hide Sound, Process, HelloPayload, GrowTo, SendHello, HelloParams;
    Begins();
    HelloPayloadBound(Resolve(RAW));
    Greeted(n.s, Resolve(NARROW), true);
    w := ApartWorker(e, n, Hello(Resolve(NARROW), true));
  }

  lemma WorkerOpens(w: Node)
    requires Calm(w, Resolve(RAW), Dialer, map[], 1) && w.s.nextSid == 1 && |w.s.out| <= 832
    requires w.s.peerMax == 1 && w.s.peerInit == DEFAULT_INIT_WINDOW
    ensures var v := DoOpen(w, []);
            && OpenStream(w.s, []).1 == 1 && v.s.streams == map[1 := STREAM] && !v.s.dead && v.s.sendWin == w.s.sendWin
            && v.s.cfg == w.s.cfg && v.s.blockedCount == w.s.blockedCount && |v.s.out| <= 844
  {
    hide GrowTo;
  }

  /** The two streams are spliced. */
  lemma Splices(e: Node, w: Node)
    requires Sound(Apart(e, w)) && e.s.events == [StreamOpened(2, [])] && OpenStream(w.s, []).1 == 1 && IdsLeft(w)
    ensures Sound(Spliced(DoPop(e), DoOpen(w, []), []))
  {
    hide Sound, DoPop, DoOpen, OpenStream, Mine, NothingYet;
    var e', w' := DoPop(e), DoOpen(w, []);
    EdgeOpening(Apart(e, w), 0);
    var _ := ApartPop(e, w);
    WorkerOpening(Apart(e', w), 0, []);
    SoundCall(Apart(e', w), Down, 0, CallOpen([]));
    ApartSets(e', w, w');
    JoinSound(e', w');
  }

  lemma JoinSound(e: Node, w: Node)
    requires Sound(Apart(e, w)) && Mine(e, true, 2) && NothingYet(e, 2) && Mine(w, false, 1) && NothingYet(w, 1)
    ensures Sound(Spliced(e, w, []))
  {
    hide NetOk, Memory, Mine, NothingYet;
    var net, R := Apart(e, w), Route(0, 0, 2, 1, [], [], false, false);
    JoinedOk(net, 0, R);
    JoinedMemory(net, 0, R);
    assert Joined(net, 0, 0, 2, 0, 1) == Spliced(e, w, []);
  }

  // ---------------------------------------------------------------- two bytes, one of which fits

  const BYTES: seq<Byte> := [7, 8]

  lemma EdgeHears(s: Session)
    requires GoodConfig(s.cfg) && s.helloSeen && s.streams == map[2 := STREAM] && s.recvWin == DEFAULT_SESSION_WINDOW
    ensures Process(s, DataFrame(2, BYTES), [2])
            == Queue(s.(streams := map[2 := STREAM.(recvWin := DEFAULT_INIT_WINDOW - 2)], recvWin := s.recvWin - 2),
                     StreamData(2, BYTES))
  {
    FlagFacts();
    hide HasSyn, HasFin, HasRst;
    assert s.streams[2 := STREAM.(recvWin := DEFAULT_INIT_WINDOW - 2)]
           == map[2 := STREAM.(recvWin := DEFAULT_INIT_WINDOW - 2)];
  }

  lemma SplicedEdge(e: Node, w: Node, buf: seq<Byte>, f: Frame) returns (e': Node)
    requires Sound(Spliced(e, w, buf)) && GoodConfig(e.s.cfg) && !e.s.dead && e.s.streams.Keys == {2}
    ensures e' == Receive(e, f, [2]) && Sound(Spliced(e', w, buf))
  {
    hide Sound, Receive;
    assert Enumerates([2], e.s.streams.Keys);
    SoundStep(Spliced(e, w, buf), Up, 0, PeerFrame(f, [2]));
    e' := Receive(e, f, [2]);
    SplicedSets(e, w, buf, e');
  }

  /** mux_write of two bytes into a window of one. */
  lemma HalfTaken(w: Node)
    requires w.s.streams == map[1 := STREAM] && !w.s.dead && w.s.sendWin == 1 && w.s.cfg == Resolve(RAW)
    requires w.s.blockedCount == 0 && |w.s.out| <= 844
    ensures WriteStream(w.s, 1, BYTES).1 == 1
    ensures var v := DoWrite(w, 1, BYTES);
            && !v.s.dead && v.s.sendWin == 0 && v.s.cfg == w.s.cfg && |v.s.out| <= 857
            && v.s.streams == map[1 := STREAM.(sendWin := DEFAULT_INIT_WINDOW - 1, blocked := true)]
  {
    hide GrowTo;
    assert BYTES[..1] == [7] && [7][..1] == [7] && [7][1..] == [];
    var s1 := SendAll(w.s, 1, [7]).0;
    assert s1.streams == map[1 := STREAM.(sendWin := DEFAULT_INIT_WINDOW - 1)];
    assert SetBlocked(s1, 1, true).streams == map[1 := STREAM.(sendWin := DEFAULT_INIT_WINDOW - 1, blocked := true)];
  }

  lemma CreditsOne(e: Node)
    requires !e.s.dead && e.s.cfg == Resolve(RAW) && e.s.recvPending == 0
    requires e.s.streams == map[2 := STREAM.(recvWin := DEFAULT_INIT_WINDOW - 2)]
    ensures var d := DoConsume(e, 2, 1);
            && !d.s.dead && d.s.cfg == e.s.cfg && d.s.helloSeen == e.s.helloSeen && d.s.events == e.s.events
            && d.s.streams == map[2 := STREAM.(recvWin := DEFAULT_INIT_WINDOW - 2, recvPending := 1)]
  {
    hide EmitSessionCredit, EmitStreamCredit;
  }

  /** The data is taken and forwarded: one byte goes, one waits. */
  lemma Forwards(e: Node, w: Node)
    requires Sound(Spliced(e, w, [])) && e.s.events == [StreamData(2, BYTES)] && WriteStream(w.s, 1, BYTES).1 == 1
    ensures Sound(Spliced(DoConsume(DoPop(e), 2, 1), DoWrite(w, 1, BYTES), [8]))
  {
    hide Sound, DoPop, DoWrite, DoConsume, WriteStream, Do, Busy, Conserves, Waiting, SameShape;
    var e' := DoPop(e);
    var net := Spliced(e, w, []);
    PopData(net, Up, 0, 0);
    DoIsPop(e);
    SplicedSets(e, w, [], e');
    var net1 := Spliced(e', w, []);
    ForwardedSound(net1, 0, Up, BYTES);
    ForwardedIs(e', w);
  }

  lemma DoIsPop(n: Node)
    ensures Do(n, CallPop) == DoPop(n)
  {
    hide DoWrite, DoOpen, DoClose, DoReset, DoConsume, DoCapacity, DoGoAway, DoTimer, DoAdvance, DoPop;
  }

  lemma ForwardedIs(e: Node, w: Node)
    requires WriteStream(w.s, 1, BYTES).1 == 1
    ensures Forwarded(Spliced(e, w, []), 0, Up, BYTES) == Spliced(DoConsume(e, 2, 1), DoWrite(w, 1, BYTES), [8])
  {
    hide DoWrite, DoConsume, WriteStream, Do;
    DoIsWrite(w, 1, BYTES);
    DoIsConsume(e, 2, 1);
    SplicedSets(e, w, [], DoWrite(w, 1, BYTES));
    SplicedSets(e, DoWrite(w, 1, BYTES), [], DoConsume(e, 2, 1));
    assert BYTES[1..] == [8];
    assert Pushes(Spliced(e, w, []), 0, Up, BYTES) == (Spliced(DoConsume(e, 2, 1), DoWrite(w, 1, BYTES), []), 1);
  }

  // ---------------------------------------------------------------- the edge stream ends

  lemma EdgeEnds(s: Session, st: Stream)
    requires GoodConfig(s.cfg) && s.helloSeen && s.streams == map[2 := st] && st.life.Open?
    ensures Process(s, FinFrame(2), [2])
            == Queue(s.(streams := map[2 := st.(life := HalfRemote)]), StreamClosed(2))
  {
    FlagFacts();
    hide HasSyn, HasFin, HasRst;
    assert s.streams[2 := st.(life := HalfRemote)] == map[2 := st.(life := HalfRemote)];
  }

  /** A sound network at whose edge the end of stream 2 is the next event, with a byte pending towards a worker
      whose connection window is closed. */
  lemma AboutToEnd() returns (e: Node, w: Node)
    ensures Sound(Spliced(e, w, [8])) && e.s.events == [StreamClosed(2)] && !e.s.dead
    ensures !w.s.dead && w.s.sendWin == 0 && w.s.cfg == Resolve(RAW) && |w.s.out| <= 857
    ensures w.s.streams == map[1 := STREAM.(sendWin := DEFAULT_INIT_WINDOW - 1, blocked := true)]
  {
    hide Sound, Process, DoOpen, DoWrite, DoConsume, WriteStream, OpenStream, Caller;
    var n := BothUp();
    var e0, e1 := EdgeOpens(n);
    var w0 := WorkerGreets(e0, n);
    WorkerOpens(w0);
    Splices(e0, w0);
    var w1 := DoOpen(w0, []);
    EdgeHears(e1.s);
    var e2 := SplicedEdge(e1, w1, [], DataFrame(2, BYTES));
    HalfTaken(w1);
    Forwards(e2, w1);
    CreditsOne(DoPop(e2));
    var e3 := DoConsume(DoPop(e2), 2, 1);
    w := DoWrite(w1, 1, BYTES);
    EdgeEnds(e3.s, STREAM.(recvWin := DEFAULT_INIT_WINDOW - 2, recvPending := 1));
    e := SplicedEdge(e3, w, [8], FinFrame(2));
  }

  lemma WindowClosed(w: Node)
    requires !w.s.dead && w.s.sendWin == 0
             && w.s.streams == map[1 := STREAM.(sendWin := DEFAULT_INIT_WINDOW - 1, blocked := true)]
    ensures WriteStream(w.s, 1, [8]).1 == 0 && DoWrite(w, 1, [8]).s == w.s
  {
  }

  lemma ClosedBehind(w: Node)
    requires !w.s.dead && w.s.cfg == Resolve(RAW) && |w.s.out| <= 857
    requires w.s.streams == map[1 := STREAM.(sendWin := DEFAULT_INIT_WINDOW - 1, blocked := true)]
    ensures var v := DoClose(w, 1);
            !v.s.dead && 1 in v.s.streams && v.s.streams[1].life.HalfLocal?
  {
    hide GrowTo, Encode;
  }

  lemma EndIs(e: Node, w: Node)
    requires WriteStream(w.s, 1, [8]).1 == 0
    ensures DirectionEnded(Spliced(e, w, [8]), 0, Up)
            == Spliced(e, DoClose(DoWrite(w, 1, [8]), 1), [8])
               .(routes := map[0 := Route(0, 0, 2, 1, [8], [], true, false)])
  {
    hide DoWrite, DoClose, WriteStream, Do;
    DoIsWrite(w, 1, [8]);
    DoIsClose(DoWrite(w, 1, [8]), 1);
    SplicedSets(e, w, [8], DoWrite(w, 1, [8]));
    SplicedSets(e, DoWrite(w, 1, [8]), [8], DoClose(DoWrite(w, 1, [8]), 1));
    assert Pushes(Spliced(e, w, [8]), 0, Up, [8]) == (Spliced(e, DoWrite(w, 1, [8]), [8]), 0);
    assert Flushed(Spliced(e, w, [8]), 0, Up) == Spliced(e, DoWrite(w, 1, [8]), [8]);
  }

  /** The input at which "every byte goes out before the FIN" fails: the end of the edge stream is taken, the
      worker's stream is closed, the byte is still pending, and no write to that stream will take it. */
  lemma ByteCutOff() returns (net: Net)
    ensures Sound(net) && |net.edges| == 1 && net.edges[0].n.s.events == [StreamClosed(2)]
    ensures net.routes == map[0 := Route(0, 0, 2, 1, [8], [], false, false)]
    ensures |net.workers| == 1 && net.workers[0].n.s.sendWin == 0
    ensures var net1 := Called(net, Up, 0, CallPop);
            && Placed(net1, 0) && !Drains(net1, 0, Up)
            && var end := DirectionEnded(net1, 0, Up);
               && end.routes == map[0 := Route(0, 0, 2, 1, [8], [], true, false)] && |end.workers| == 1
               && forall q :: WriteStream(end.workers[0].n.s, 1, q).1 == ERR_STATE
  {
    hide Sound, DoPop, DoWrite, DoClose, WriteStream, Do, DirectionEnded, Drains;
    var e, w := AboutToEnd();
    net := Spliced(e, w, [8]);
    DoIsPop(e);
    SplicedSets(e, w, [8], DoPop(e));
    var net1 := Spliced(DoPop(e), w, [8]);
    WindowClosed(w);
    EndIs(DoPop(e), w);
    CutOffExactly(net1, 0, Up);
    var v := DoWrite(w, 1, [8]);
    ClosedBehind(v);
    NoMore(DoClose(v, 1).s);
  }

  lemma NoMore(s: Session)
    requires !s.dead && 1 in s.streams && s.streams[1].life.HalfLocal?
    ensures forall q :: WriteStream(s, 1, q).1 == ERR_STATE
  {
    hide SendAll;
  }

  /** There too a route that is freed loses credit: the edge's window is a byte short from then on. */
  lemma CreditLost() returns (net: Net)
    ensures Sound(net) && net.routes == map[0 := Route(0, 0, 2, 1, [8], [], false, false)] && |net.edges| == 1
    ensures Entered(net, 0, Up) && Entered(net, 0, Down) && |Freed(net, 0).edges| == 1
    ensures Lost(Freed(net, 0), Up, 0) == Lost(net, Up, 0) + 1 && Lost(net, Up, 0) >= 0
  {
    hide Sound, Freed, Lost;
    var e, w := AboutToEnd();
    net := Spliced(e, w, [8]);
    SoundEnds(net, 0, Up);
    FreedNodes(net, 0);
    FreedTables(net, 0, Up, 0);
    FreeLoses(net, 0, Up, 0);
    WindowAccount(net, Up, 0);
  }
}
