/** Inputs at which properties one might expect of the programs fail; each is paired elsewhere with the exact
    condition under which the property holds. */
module Failures {
  import opened Wire
  import opened Codec
  import opened Session
  import opened Greeting
  import opened Trace
  import opened Node
  import opened NodeRuns
  import opened Closing
  import opened LostCredit
  import opened HostWake
  import opened Splice
  import opened Hosting
  import opened PeerDesk
  import opened PeerFlow
  import opened Meddling
  import opened PeerLaws

  // ---------------------------------------------------------------- a stream reported closed twice

  /** A SYN that also finishes its stream. */
  function SynFin(): Frame { Frame(T_DATA, F_SYN + F_FIN, 1, []) }

  lemma SynFinFlags()
    ensures HasSyn(SynFin().flags) && HasFin(SynFin().flags) && !HasRst(SynFin().flags)
  {
  }

  lemma HalfClosedAtOnce(s: Session)
    requires GoodConfig(s.cfg) && s.helloSeen && s.role.Acceptor? && s.streams == map[] && s.maxRemote == 0
    requires !s.localGoaway
    ensures var t := Process(s, SynFin(), []);
            && !t.dead == !s.dead && t.cfg == s.cfg && t.helloSeen
            && t.streams == map[1 := Fresh(s).(life := HalfRemote)]
            && t.events == s.events + [StreamOpened(1, []), StreamClosed(1)]
  {
    SynFinFlags();
    hide HasSyn, HasFin, HasRst;
  }

  /** A run of an acceptor whose peer repeats the end of a stream: it is reported closed twice. */
  lemma ClosedTwice() returns (ns: seq<Node>, sts: seq<Step>)
    ensures IsRun(RAW, Acceptor, ns, sts) && Closings(Log(ns[|sts|]), 1) == 2
  {
    hide HelloPayload, Process, Receive, Closings;
    var c := Resolve(RAW);
    var n0 := Start(Blank(c, Acceptor));
    ServingGreeted();
    var n1 := Hears1(n0, Hello(c, false), []);
    HalfClosedAtOnce(n1.s);
    var n2 := Hears1(n1, SynFin(), []);
    FlagFacts();
    RepeatOnlyReports(n2.s, FinFrame(1), [1]);
    var n3 := Hears1(n2, FinFrame(1), [1]);
    ns := [n0, n1, n2, n3];
    sts := [PeerFrame(Hello(c, false), []), PeerFrame(SynFin(), []), PeerFrame(FinFrame(1), [1])];
    TwoClosings(n3, Learned(c).info);
  }

  lemma Hears1(n: Node, f: Frame, order: seq<Sid>) returns (n': Node)
    requires GoodConfig(n.s.cfg) && !n.s.dead
    ensures n' == Receive(n, f, order) && n'.s == Process(n.s, f, order) && n'.popped == n.popped
  {
    hide Process;
    n' := Receive(n, f, order);
  }

  lemma TwoClosings(n: Node, info: HelloInfo)
    requires n.popped == []
    requires n.s.events == [PeerHello(info)] + [StreamOpened(1, []), StreamClosed(1)] + [StreamClosed(1)]
    ensures Closings(Log(n), 1) == 2
  {
    assert Log(n) == n.s.events;
  }

  // ---------------------------------------------------------------- an old handle finishes a new stream

  /** An acceptor whose peer has greeted it and opened stream 1; both events are taken. */
  function Serving(): Node
    ensures GoodConfig(Resolve(RAW))
  {
    var c := Resolve(RAW);
    var n0 := Start(Blank(c, Acceptor));
    var n1 := Receive(n0, Hello(c, false), []);
    var n2 := n1.(s := Queue(n1.s.(streams := map[1 := Fresh(n1.s)], maxRemote := 1), StreamOpened(1, [])),
                  rcvd := n1.rcvd + [SynFrame(1, [])]);
    DoPop(DoPop(n2))
  }

  lemma ServingGreeted()
    ensures var c := Resolve(RAW);
            var s := Process(Blank(c, Acceptor), Hello(c, false), []);
            && !s.dead && s.cfg == c && s.helloSeen && s.role.Acceptor? && s.streams == map[] && s.maxRemote == 0
            && !s.localGoaway && s.wire == [Hello(c, true)] && s.events == [PeerHello(Learned(c).info)]
            && s.sendWin == DEFAULT_SESSION_WINDOW && s.peerInit == DEFAULT_INIT_WINDOW && |s.out| <= 832
  {
    hide HelloPayload, SendHello, Process, GrowTo;
    var c := Resolve(RAW);
    HelloPayloadBound(c);
    Greeted(Blank(c, Acceptor), c, false);
    SaysHello(Learns(Blank(c, Acceptor), c), true);
  }

  lemma ServingFacts()
    ensures var n := Serving();
            && n.s.streams == map[1 := STREAM] && !n.s.dead && n.s.helloSeen && n.s.events == [] && |n.s.out| <= 832
            && n.s.wire == [Hello(Resolve(RAW), true)] && n.s.cfg == Resolve(RAW) && n.s.role.Acceptor?
            && n.popped == [PeerHello(Learned(Resolve(RAW)).info), StreamOpened(1, [])]
            && n.wrote == map[] && n.consumed == map[] && n.s.sendWin > 0
  {
    hide HelloPayload, Process, HelloParams;
    ServingGreeted();
  }

  /** It is reached by steps of a session, so it satisfies the session laws. */
  lemma ServingGood()
    ensures Inv(Serving()) && OpensOk(Serving()) && Mine(Serving(), true, 1)
  {
    hide HelloPayload, Process, HelloParams, Inv, OpensOk, Mine, DoPop;
    var c := Resolve(RAW);
    ServingGreeted();
    var n0 := Start(New(RAW, Acceptor).value);
    StartGood(RAW, Acceptor);
    var n1 := Advances(n0, PeerFrame(Hello(c, false), []));
    Admitted(n1.s);
    var n2 := Advances(n1, PeerFrame(SynFrame(1, []), []));
    var n3 := Advances(n2, HostCall(CallPop));
    var n4 := Advances(n3, HostCall(CallPop));
    assert n4 == Serving();
    ServingMine();
  }

  lemma ServingMine()
    ensures Mine(Serving(), true, 1)
  {
    hide HelloPayload, Process, HelloParams;
    ServingGreeted();
    assert Serving().popped[1] == StreamOpened(1, []);
  }

  lemma Advances(n: Node, st: Step) returns (n': Node)
    requires Inv(n) && OpensOk(n) && GoodConfig(n.s.cfg) && Enabled(n, st)
    ensures n' == Next(n, st) && Inv(n') && OpensOk(n') && GoodConfig(n'.s.cfg)
  {
    hide Inv, OpensOk, Next, Enabled;
    n' := Next(n, st);
    StepInv(n, st);
    InvConfig(n');
    StepOpens(n, st);
  }

  /** A handle from an earlier session, just closed by the application, and a stream of the present one, both
      under id 1. */
  const OLD := Lp(1, false, [], [], 0, true, true, true, false, true, true, false, false)
  const YOUNG := Lp(1, true, [], [], 0, false, false, false, false, false, false, false, false)

  /** The desk with both, the old one having `buf` left to send. */
  function Beside(buf: seq<Byte>): Desk {
    Desk(map[0 := OLD.(wbuf := buf), 1 := YOUNG], map[1 := 1], [0], [], [], {1})
  }

  lemma DeskInOrder(buf: seq<Byte>)
    ensures DeskOk(Beside(buf), [])
  {
  }

  /** The old stream processed: its FIN is due and it is done. */
  function Processed(): Desk {
    var d := Put(Beside([]).(pending := []), 0, Finned(OLD.(inPending := false)));
    TryFreed(d, 0)
  }

  /** All is in order; then closing an old handle sends a FIN on the new stream with the same id, which its owner
      has not closed. The old stream is then gone, so the ids of the streams present do not tell. */
  lemma OldHandleFinishesNewStream()
    ensures Rested(Serving(), Beside([]), [], map[1 := []], map[1 := []], {})
    ensures FinDue(OLD) && !Tr(Serving().s.wire, 1).fin && Tr(Do(Serving(), CallClose(1)).s.wire, 1).fin
    ensures Processed().all == map[1 := YOUNG] && !YOUNG.finSent && !YOUNG.appClosed
    ensures !Balanced(Do(Serving(), CallClose(1)), YOUNG, [], [])
  {
    hide HelloPayload, Process, Serving, Rested, Do, Tr, LpFlow, Balanced, Processed;
    ServingFacts();
    var n := Serving();
    NotFinished(Hello(Resolve(RAW), true));
    YoungInOrder(n, Learned(Resolve(RAW)).info);
    ServingRested(n, []);
    FinishServing(n);
    UnaskedFin(Do(n, CallClose(1)));
    OldIsGone();
  }

  /** And whatever it had left to send goes out on the new stream. */
  lemma OldBytesEnterNewStream(buf: seq<Byte>)
    requires buf != []
    ensures Rested(Serving(), Beside(buf), [], map[1 := []], map[1 := []], {})
    ensures Wrote(Serving(), 1) == [] && Wrote(Do(Serving(), CallWrite(1, buf)), 1) != []
    ensures !Balanced(Do(Serving(), CallWrite(1, buf)), YOUNG, [], [])
  {
    hide HelloPayload, Process, Serving, Rested, Do, Tr, Balanced, TakesSome, WriteStream, Inv, Used;
    ServingFacts();
    var n := Serving();
    NotFinished(Hello(Resolve(RAW), true));
    YoungInOrder(n, Learned(Resolve(RAW)).info);
    ServingRested(n, buf);
    ServingGood();
    LiveUsed(n, 1);
    CanWrite(n.s, |buf|);
    WriteMeddles(n, YOUNG, [], [], buf);
    WriteSomeExactly(n.s, 1, buf);
    WriteStreams(n, buf);
  }

  lemma CanWrite(s: Session, k: nat)
    requires s.streams == map[1 := STREAM] && !s.dead && s.cfg == Resolve(RAW) && |s.out| <= 832 && k > 0
    requires s.sendWin > 0
    ensures TakesSome(s, 1, k)
  {
  }

  lemma WriteStreams(n: Node, buf: seq<Byte>)
    requires GoodConfig(n.s.cfg) && WriteStream(n.s, 1, buf).1 > 0
    ensures Wrote(Do(n, CallWrite(1, buf)), 1) != []
  {
    hide WriteStream, Do;
    WriteWaits(n.s, 1, buf);
    WriteNote(n, 1, buf);
    StepIsDo(n, CallWrite(1, buf));
  }

  lemma UnaskedFin(n: Node)
    requires Tr(n.s.wire, 1).fin
    ensures !Balanced(n, YOUNG, [], [])
  {
    hide Tr;
  }

  lemma OldIsGone()
    ensures Processed().all == map[1 := YOUNG]
  {
  }

  lemma NotFinished(f: Frame)
    requires f.typ != T_DATA
    ensures !Tr([f], 1).fin
  {
    TrAppend([], f, 1);
    assert [] + [f] == [f];
  }

  lemma YoungInOrder(n: Node, info: HelloInfo)
    requires n.popped == [PeerHello(info)] + [StreamOpened(1, [])] && n.wrote == map[] && n.consumed == map[]
    requires !Tr(n.s.wire, 1).fin
    ensures LpFlow(n, YOUNG, [], [])
  {
    hide Tr;
    HearAppend([PeerHello(info)], StreamOpened(1, []), 1);
    HearAppend([], PeerHello(info), 1);
    assert [] + [PeerHello(info)] == [PeerHello(info)];
  }

  lemma ServingRested(n: Node, buf: seq<Byte>)
    requires n == Serving() && n.s.events == [] && n.s.cfg == Resolve(RAW) && LpFlow(n, YOUNG, [], [])
    ensures Rested(n, Beside(buf), [], map[1 := []], map[1 := []], {})
  {
    hide HelloPayload, Process, Inv, OpensOk, Mine, Serving, DeskOk, LpFlow;
    ServingGood();
    DeskInOrder(buf);
  }

  lemma FinishServing(n: Node)
    requires n.s.streams == map[1 := STREAM] && !n.s.dead && n.s.cfg == Resolve(RAW) && n.s.helloSeen
    requires |n.s.out| <= 832
    ensures Tr(Do(n, CallClose(1)).s.wire, 1).fin
  {
    hide Encode, GrowTo, HasSyn, HasFin, HasRst;
    FlagFacts();
    TrAppend(n.s.wire, FinFrame(1), 1);
  }
}
