/** A run after which the connection is stalled for good. Bytes that cross a reset on the wire are dropped
    without credit; here they are the whole window, and at quiescence nothing more can be sent. */
module LostCredit {
  import opened Wire
  import opened Codec
  import opened Session
  import opened Greeting
  import opened Trace
  import opened Node
  import opened Recv
  import opened Pair
  import opened Theorems

  // ---------------------------------------------------------------- getting from state to state

  ghost predicate Path(ps: seq<Pair>) {
    |ps| > 0 && forall i :: 0 <= i < |ps| - 1 ==> PairStep(ps[i], ps[i + 1])
  }

  ghost predicate Leads(p: Pair, q: Pair) {
    exists ps: seq<Pair> :: Path(ps) && ps[0] == p && ps[|ps| - 1] == q
  }

  lemma LeadsStep(p: Pair, q: Pair)
    requires PairStep(p, q)
    ensures Leads(p, q)
  {
    hide PairStep;
    assert Path([p, q]);
  }

  lemma LeadsTrans(p: Pair, q: Pair, r: Pair)
    requires Leads(p, q) && Leads(q, r)
    ensures Leads(p, r)
  {
    hide PairStep;
    var a :| Path(a) && a[0] == p && a[|a| - 1] == q;
    var b :| Path(b) && b[0] == q && b[|b| - 1] == r;
    var c := a + b[1..];
    forall i | 0 <= i < |c| - 1 ensures PairStep(c[i], c[i + 1]) {
      if i < |a| - 1 {
        assert PairStep(a[i], a[i + 1]);
      } else {
        var j := i - (|a| - 1);
        assert PairStep(b[j], b[j + 1]);
        assert c[i] == b[j] && c[i + 1] == b[j + 1];
      }
    }
    assert Path(c);
  }

  lemma LeadsSwap(p: Pair, q: Pair)
    requires Leads(Swap(p), Swap(q))
    ensures Leads(p, q)
  {
    hide SideStep;
    var a :| Path(a) && a[0] == Swap(p) && a[|a| - 1] == Swap(q);
    var b := seq(|a|, i requires 0 <= i < |a| => Swap(a[i]));
    forall i | 0 <= i < |b| - 1 ensures PairStep(b[i], b[i + 1]) {
      assert PairStep(a[i], a[i + 1]);
    }
    assert Path(b);
  }

  lemma LeadsRun(p: Pair, q: Pair, rawA: Config, rawB: Config) returns (ps: seq<Pair>)
    requires PairInit(p, rawA, rawB) && Leads(p, q)
    ensures PairRun(ps, rawA, rawB) && ps[|ps| - 1] == q
  {
    hide PairStep, PairInit;
    ps :| Path(ps) && ps[0] == p && ps[|ps| - 1] == q;
  }

  /** A host call of the first endpoint. */
  lemma Calls(p: Pair, c: Call)
    requires CallOk(p.a, c) && !c.CallAdvance?
    ensures Leads(p, p.(a := Do(p.a, c)))
  {
    hide CallOk, Do;
    var q := p.(a := Do(p.a, c));
    assert p.ab.transit + [] == p.ab.transit;
    assert HostStep(p, c, q);
    assert SideStep(p, q);
    LeadsStep(p, q);
  }

  const IDLE := Link([], [])

  /** The one frame the first endpoint has pending travels and is processed. */
  lemma Travels(p: Pair, f: Frame, order: seq<Sid>)
    requires p.a.s.out == Encode(f) && p.ab == IDLE && Hears(p.b.s, f, order)
    ensures Leads(p, p.(a := DoAdvance(p.a, |Encode(f)|), b := Absorb(p.b, [f], Process(p.b.s, f, order))))
  {
    hide Process, Encode, Absorb, Leads, DoAdvance, Enumerates;
    var bytes := p.a.s.out;
    Sent(p);
    var p1 := p.(a := DoAdvance(p.a, |bytes|), ab := Link(bytes, []));
    Arrives(p1, bytes);
    var p2 := p1.(ab := Link([], bytes));
    Taken(p2, f, order);
    var p3 := p2.(b := Absorb(p.b, [f], Process(p.b.s, f, order)), ab := IDLE);
    LeadsTrans(p, p1, p2);
    LeadsTrans(p, p2, p3);
  }

  lemma Sent(p: Pair)
    requires p.ab == IDLE
    ensures Leads(p, p.(a := DoAdvance(p.a, |p.a.s.out|), ab := Link(p.a.s.out, [])))
  {
    var bytes := p.a.s.out;
    var p1 := p.(a := DoAdvance(p.a, |bytes|), ab := Link(bytes, []));
    assert [] + bytes == bytes && bytes[..|bytes|] == bytes;
    assert HostStep(p, CallAdvance(|bytes|), p1);
    assert SideStep(p, p1);
    LeadsStep(p, p1);
  }

  lemma Arrives(p: Pair, bytes: seq<Byte>)
    requires p.ab == Link(bytes, [])
    ensures Leads(p, p.(ab := Link([], bytes)))
  {
    var q := p.(ab := Link([], bytes));
    assert bytes[|bytes|..] == [] && [] + bytes[..|bytes|] == bytes;
    assert ArriveStep(Swap(p), |bytes|, Swap(q));
    assert SideStep(Swap(p), Swap(q));
    LeadsStep(p, q);
  }

  lemma Taken(p: Pair, f: Frame, order: seq<Sid>)
    requires p.ab == Link([], Encode(f)) && Hears(p.b.s, f, order)
    ensures Leads(p, p.(b := Absorb(p.b, [f], Process(p.b.s, f, order)), ab := IDLE))
  {
    hide Process, Encode, Absorb, Enumerates;
    var s1 := Process(p.b.s, f, order);
    var q := p.(b := Absorb(p.b, [f], s1), ab := IDLE);
    OneFrameRun(p.b.s, f, order);
    AbsorbSession(p.b, f, s1);
    assert Encode(f)[|EncodeAll([f])|..] == [];
    assert RecvStep(Swap(p), [f], Swap(q));
    assert SideStep(Swap(p), Swap(q));
    LeadsStep(p, q);
  }

  lemma AbsorbSession(n: Node, f: Frame, s: Session)
    ensures Absorb(n, [f], s).s == s
  {
  }

  /** A session that takes the frame and lives. */
  ghost predicate Hears(s: Session, f: Frame, order: seq<Sid>) {
    && GoodConfig(s.cfg) && !s.dead && |s.events| < EVENT_QUEUE_SOFT_CAP
    && Enumerates(order, s.streams.Keys) && !Process(s, f, order).dead
  }

  lemma OneFrameRun(s: Session, f: Frame, order: seq<Sid>)
    requires Hears(s, f, order)
    ensures EncodeAll([f]) == Encode(f) && RecvRun(s, Encode(f), [f], Process(s, f, order))
  {
    hide Process, Encode, Enumerates, Parse;
    var s1 := Process(s, f, order);
    assert Encode(f) + [] == Encode(f);
    ParseEncode(f, []);
    EncodeParse(Encode(f));
    assert Processes(s, f, s1);
    assert Takes(s, Encode(f), f, s1);
    assert Encode(f)[|Encode(f)|..] == [] && [f][1..] == [];
    assert RecvRun(s1, [], [], s1);
    EncodesOne(f);
  }

  lemma EncodesOne(f: Frame)
    ensures EncodeAll([f]) == Encode(f)
  {
    assert [f][..0] == [] && EncodeAll([]) == [];
  }

  // ---------------------------------------------------------------- the run

  const RAW := Config(0, 0, 0, 0, 0, 0, 0, [], [], [])
  const NARROW := RAW.(sessionWindow := 1, maxStreams := 1)

  /** What the two endpoints have in common along the run. */
  predicate Calm(n: Node, c: Config, role: Role, streams: map<Sid, Stream>, k: nat) {
    && n.s.cfg == c && n.s.role == role && !n.s.dead && n.s.helloSeen && !n.s.localGoaway && n.s.streams == streams
    && n.rcvd != [] && n.popped == [] && n.consumed == map[] && n.consumedTotal == 0
    && |n.s.events| <= k <= 3 && (forall e :: e in n.s.events ==> Mute(e))
  }

  /** A dialer and an acceptor that have greeted each other. */
  ghost predicate Met(p: Pair, ss: map<Sid, Stream>, ts: map<Sid, Stream>, k: nat) {
    && Calm(p.a, Resolve(RAW), Dialer, ss, k) && Calm(p.b, Resolve(NARROW), Acceptor, ts, k)
    && p.ab == IDLE && p.ba == IDLE
  }

  function Hello(c: Config, ack: bool): Frame
    requires BlobsFit(c)
  {
    HelloFrame(Blank(c, Dialer), ack)
  }

  function Learns(s: Session, c: Config): Session {
    Queue(s.(peerMax := c.maxStreams, peerInit := c.initWindow, sendWin := c.sessionWindow, helloSeen := true),
          PeerHello(Learned(c).info))
  }

  /** A greeting, processed. */
  lemma Greeted(s: Session, c: Config, ack: bool)
    requires GoodConfig(s.cfg) && BlobsFit(c) && !s.helloSeen && (ack || (s.role.Acceptor? && !s.helloSent))
    ensures Process(s, Hello(c, ack), [])
            == if ack then Learns(s, c) else SendHello(Learns(s, c), true)
  {
    hide HelloPayload, Emit, ReadTlvs;
    HelloRoundTrip(c, Params(s.peerMax, s.peerInit, s.sendWin, NO_INFO));
  }

  /** A greeting that fits the output buffer. */
  lemma SaysHello(s: Session, ack: bool)
    requires BlobsFit(s.cfg) && s.out == [] && s.cfg.maxOutBuffer >= 832
    ensures SendHello(s, ack) == Emitted(s, Hello(s.cfg, ack)).(helloSent := true)
    ensures SendHello(s, ack).out == Encode(Hello(s.cfg, ack))
  {
    hide HelloPayload, GrowTo, Encode;
    HelloPayloadBound(s.cfg);
    assert [] + Encode(Hello(s.cfg, ack)) == Encode(Hello(s.cfg, ack));
  }

  function Caller(): Session { SendHello(Blank(Resolve(RAW), Dialer), false) }
  function Callee(): Session { Blank(Resolve(NARROW), Acceptor) }

  function Begin(): Pair { Pair(Start(Caller()), Start(Callee()), IDLE, IDLE) }

  lemma Begins()
    ensures PairInit(Begin(), RAW, NARROW)
    ensures Caller() == Emitted(Blank(Resolve(RAW), Dialer), Hello(Resolve(RAW), false)).(helloSent := true)
    ensures Caller().out == Encode(Hello(Resolve(RAW), false))
  {
    hide HelloPayload, GrowTo, Encode, SendHello;
    SaysHello(Blank(Resolve(RAW), Dialer), false);
  }

  /** The greetings are exchanged; the dialer has learned a connection window of one byte and a cap of one
      stream. */
  lemma Meet() returns (p: Pair)
    ensures Leads(Begin(), p) && Met(p, map[], map[], 1)
    ensures p.a.s.sendWin == 1 && p.a.s.peerInit == DEFAULT_INIT_WINDOW && p.a.s.peerMax == 1
    ensures p.b.s.nextSid == 2 && p.b.opens == 0 && p.b.s.peerMax == DEFAULT_MAX_STREAMS
    ensures p.b.s.events == [PeerHello(Learned(Resolve(RAW)).info)]
    ensures p.a.s.nextSid == 1 && p.a.opens == 0 && p.a.s.out == [] && p.b.s.out == [] && p.b.s.maxRemote == 0
    ensures p.a.s.blockedCount == 0
  {
    hide HelloPayload, GrowTo, Encode, SendHello, Process, Leads, HelloParams;
    var ca, cb := Resolve(RAW), Resolve(NARROW);
    Begins();
    var b1 := Learns(Callee(), ca);
    Greeted(Callee(), ca, false);
    SaysHello(b1, true);
    Travels(Begin(), Hello(ca, false), []);
    var q := Pair(DoAdvance(Start(Caller()), |Encode(Hello(ca, false))|),
                  Absorb(Start(Callee()), [Hello(ca, false)], SendHello(b1, true)), IDLE, IDLE);
    Greeted(q.a.s, cb, true);
    Travels(Swap(q), Hello(cb, true), []);
    p := Pair(Absorb(q.a, [Hello(cb, true)], Learns(q.a.s, cb)), DoAdvance(q.b, |Encode(Hello(cb, true))|), IDLE, IDLE);
    LeadsSwap(q, p);
    LeadsTrans(Begin(), q, p);
  }

  const STREAM := Stream(Open, false, DEFAULT_INIT_WINDOW, DEFAULT_INIT_WINDOW, 0)

  lemma Opened(n: Node, k: nat)
    requires Calm(n, Resolve(RAW), Dialer, map[], k) && n.s.nextSid == 1 && n.opens == 0 && n.s.out == []
    requires n.s.peerMax == 1 && n.s.peerInit == DEFAULT_INIT_WINDOW
    ensures var m := DoOpen(n, []);
            && Calm(m, Resolve(RAW), Dialer, map[1 := STREAM], k) && m.s.out == Encode(SynFrame(1, []))
            && m.s.sendWin == n.s.sendWin && m.s.blockedCount == n.s.blockedCount
  {
    hide GrowTo, Encode;
    assert [] + Encode(SynFrame(1, [])) == Encode(SynFrame(1, []));
  }

  lemma Admitted(s: Session)
    requires GoodConfig(s.cfg) && s.helloSeen && s.role.Acceptor? && s.streams == map[] && s.maxRemote == 0
    requires !s.localGoaway
    ensures Process(s, SynFrame(1, []), [])
            == Queue(s.(streams := map[1 := Fresh(s)], maxRemote := 1), StreamOpened(1, []))
  {
    FlagFacts();
    hide HasSyn, HasFin, HasRst;
  }

  /** A stream is opened. */
  lemma OpenOne(p: Pair) returns (q: Pair)
    requires Met(p, map[], map[], 1) && p.a.s.sendWin == 1 && p.a.s.peerInit == DEFAULT_INIT_WINDOW
    requires p.a.s.peerMax == 1 && p.a.s.nextSid == 1 && p.a.opens == 0
    requires p.a.s.out == [] && p.b.s.out == [] && p.b.s.maxRemote == 0 && p.a.s.blockedCount == 0
    ensures Leads(p, q) && exists st :: Met(q, map[1 := STREAM], map[1 := st], 2)
    ensures q.a.s.sendWin == 1 && q.a.s.out == [] && q.b.s.out == [] && q.a.s.blockedCount == 0
  {
    hide GrowTo, Encode, Process, Leads, DoOpen;
    Opened(p.a, 1);
    Calls(p, CallOpen([]));
    var m := p.(a := DoOpen(p.a, []));
    Admitted(p.b.s);
    Travels(m, SynFrame(1, []), []);
    q := m.(a := DoAdvance(m.a, |Encode(SynFrame(1, []))|),
        b := Absorb(p.b, [SynFrame(1, [])], Process(p.b.s, SynFrame(1, []), [])));
    LeadsTrans(p, m, q);
    assert Met(q, map[1 := STREAM], map[1 := Fresh(p.b.s)], 2);
  }

  lemma Written(n: Node, k: nat)
    requires Calm(n, Resolve(RAW), Dialer, map[1 := STREAM], k) && n.s.sendWin == 1 && n.s.out == []
             && n.s.blockedCount == 0
    ensures var m := DoWrite(n, 1, [7]);
            && Calm(m, Resolve(RAW), Dialer, map[1 := STREAM.(sendWin := DEFAULT_INIT_WINDOW - 1)], k)
            && m.s.out == Encode(DataFrame(1, [7])) && m.s.sendWin == 0
  {
    hide GrowTo, Encode;
    assert [7][..1] == [7] && [7][1..] == [] && [] + Encode(DataFrame(1, [7])) == Encode(DataFrame(1, [7]));
  }

  lemma Reset(n: Node, st: Stream, k: nat)
    requires Calm(n, Resolve(NARROW), Acceptor, map[1 := st], k) && n.s.out == []
    ensures var m := DoReset(n, 1, CODE_INTERNAL);
            && Calm(m, Resolve(NARROW), Acceptor, map[], k) && m.s.out == Encode(RstFrame(1, CODE_INTERNAL))
  {
    hide GrowTo, Encode;
    assert [] + Encode(RstFrame(1, CODE_INTERNAL)) == Encode(RstFrame(1, CODE_INTERNAL));
  }

  /** Data for a stream that is gone is dropped. */
  lemma DroppedData(s: Session)
    requires GoodConfig(s.cfg) && s.helloSeen && s.streams == map[]
    ensures Process(s, DataFrame(1, [7]), []) == s
  {
    FlagFacts();
    hide HasSyn, HasFin, HasRst;
  }

  lemma ResetHeard(s: Session, st: Stream)
    requires GoodConfig(s.cfg) && s.helloSeen && s.streams == map[1 := st]
    ensures Process(s, RstFrame(1, CODE_INTERNAL), [1]) == Remove(Queue(s, StreamReset(1, CODE_INTERNAL)), 1)
  {
    FlagFacts();
    hide HasSyn, HasFin, HasRst;
    WordTlv(CODE_INTERNAL);
  }

  /** The byte that fills the window and the reset cross on the wire. */
  lemma Cross(p: Pair, st: Stream) returns (q: Pair)
    requires Met(p, map[1 := STREAM], map[1 := st], 2) && p.a.s.sendWin == 1 && p.a.s.out == [] && p.b.s.out == []
    requires p.a.s.blockedCount == 0
    ensures Leads(p, q) && Met(q, map[], map[], 3) && q.a.s.sendWin == 0 && q.a.s.out == [] && q.b.s.out == []
  {
    hide GrowTo, Encode, Process, Leads, DoWrite, DoReset;
    var f, g := DataFrame(1, [7]), RstFrame(1, CODE_INTERNAL);
    Written(p.a, 2);
    Calls(p, CallWrite(1, [7]));
    var p1 := p.(a := DoWrite(p.a, 1, [7]));
    Reset(p.b, st, 2);
    Calls(Swap(p1), CallReset(1, CODE_INTERNAL));
    var p2 := p1.(b := DoReset(p.b, 1, CODE_INTERNAL));
    LeadsSwap(p1, p2);
    LeadsTrans(p, p1, p2);
    DroppedData(p2.b.s);
    Travels(p2, f, []);
    var p3 := p2.(a := DoAdvance(p2.a, |Encode(f)|), b := Absorb(p2.b, [f], p2.b.s));
    LeadsTrans(p, p2, p3);
    ResetHeard(p3.a.s, STREAM.(sendWin := DEFAULT_INIT_WINDOW - 1));
    Travels(Swap(p3), g, [1]);
    q := p3.(a := Absorb(p3.a, [g], Process(p3.a.s, g, [1])), b := DoAdvance(p3.b, |Encode(g)|));
    assert p3.a.s.streams - {1} == map[];
    LeadsSwap(p3, q);
    LeadsTrans(p, p3, q);
  }

  /** Nothing was delivered, so nothing is left to consume. */
  lemma MuteMeansConsumed(n: Node, c: Config, role: Role)
    requires Calm(n, c, role, map[], 3)
    ensures AllConsumed(n)
  {
    assert Log(n) == n.s.events;
    assert [] + n.s.events == n.s.events;
    HearMute([], n.s.events, SID_CONTROL);
  }

  lemma Ends(p: Pair)
    requires Met(p, map[], map[], 3) && p.a.s.sendWin == 0 && p.a.s.out == [] && p.b.s.out == []
    ensures Quiescent(p) && !Theorems.Open(p.a)
  {
    hide AllConsumed;
    MuteMeansConsumed(p.a, Resolve(RAW), Dialer);
    MuteMeansConsumed(p.b, Resolve(NARROW), Acceptor);
  }

  /** A run after which both channels are drained and everything delivered is consumed, and yet the dialer's
      connection window is closed. */
  lemma StalledForGood() returns (ps: seq<Pair>)
    ensures PairRun(ps, RAW, NARROW) && Quiescent(ps[|ps| - 1])
    ensures ps[|ps| - 1].a.s.sendWin == 0 && !Theorems.Open(ps[|ps| - 1].a)
  {
    hide Leads, PairInit, PairStep, Quiescent, Met, Theorems.Open, Begin;
    Begins();
    var p := Meet();
    var q := OpenOne(p);
    var st :| Met(q, map[1 := STREAM], map[1 := st], 2);
    var r := Cross(q, st);
    LeadsTrans(Begin(), p, q);
    LeadsTrans(Begin(), q, r);
    Ends(r);
    ps := LeadsRun(Begin(), r, RAW, NARROW);
  }
}
