/** A run in which a stream is refused although its opener kept to the peer's MAX_STREAMS: the peer opens one at
    the same time, and the cap counts both. */
module Crossing {
  import opened Wire
  import opened Codec
  import opened Session
  import opened Node
  import opened Sending
  import opened Pair
  import opened LostCredit

  /** The acceptor opens its stream. */
  lemma CalleeOpens(n: Node)
    requires Calm(n, Resolve(NARROW), Acceptor, map[], 1) && n.s.nextSid == 2 && n.opens == 0 && n.s.out == []
    requires n.s.peerMax == DEFAULT_MAX_STREAMS
    ensures var m := DoOpen(n, []);
            && m.s == n.s.(nextSid := 4, streams := map[2 := Fresh(n.s)], out := m.s.out, wire := m.s.wire,
                cap := m.s.cap)
            && m.opens == 1 && m.popped == n.popped && m.rcvd == n.rcvd && |m.s.out| == HEADER_SIZE
  {
    hide GrowTo, Encode;
    EncodedLength(SynFrame(2, []));
  }

  /** A SYN that finds the cap reached is refused, and the host hears nothing of it. */
  lemma RefusedSyn(s: Session)
    requires GoodConfig(s.cfg) && s.cfg.maxStreams == 1 && s.cfg.maxOutBuffer >= 100 && |s.out| == HEADER_SIZE
    requires !s.dead && s.helloSeen && s.role.Acceptor? && |s.streams| == 1 && 1 !in s.streams && s.maxRemote == 0
    ensures var s1 := Process(s, SynFrame(1, []), [2]);
            !s1.dead && s1.events == s.events && s1.localGoaway == s.localGoaway
  {
    FlagFacts();
    hide HasSyn, HasFin, HasRst, Encode, GrowTo;
  }

  /** Both ends have opened a stream, and neither SYN has travelled. */
  lemma BothOpen(p: Pair) returns (q: Pair)
    requires Met(p, map[], map[], 1) && p.a.s.out == [] && p.b.s.out == []
    requires p.a.s.peerMax == 1 && p.a.s.peerInit == DEFAULT_INIT_WINDOW && p.a.s.nextSid == 1 && p.a.opens == 0
    requires p.b.s.nextSid == 2 && p.b.opens == 0 && p.b.s.peerMax == DEFAULT_MAX_STREAMS && p.b.s.maxRemote == 0
    ensures Leads(p, q) && q.ab == IDLE && q.a.s.out == Encode(SynFrame(1, []))
    ensures q.b.s == p.b.s.(nextSid := 4, streams := map[2 := Fresh(p.b.s)], out := q.b.s.out, wire := q.b.s.wire,
                            cap := q.b.s.cap)
    ensures q.b.opens == 1 && q.b.popped == [] && |q.b.s.out| == HEADER_SIZE
  {
    hide Leads, GrowTo, Encode, DoOpen;
    CalleeOpens(p.b);
    Calls(Swap(p), CallOpen([]));
    var p1 := p.(b := DoOpen(p.b, []));
    LeadsSwap(p, p1);
    Opened(p.a, 1);
    Calls(p1, CallOpen([]));
    q := p1.(a := DoOpen(p.a, []));
    LeadsTrans(p, p1, q);
  }

  lemma SynArrives(p: Pair, s: Session) returns (q: Pair)
    requires p.ab == IDLE && p.a.s.out == Encode(SynFrame(1, [])) && |p.b.s.out| == HEADER_SIZE
    requires s.cfg == Resolve(NARROW) && s.role == Acceptor && !s.dead && s.helloSeen && !s.localGoaway
    requires |s.events| == 1 && s.maxRemote == 0 && p.b.popped == []
    requires p.b.s == s.(nextSid := 4, streams := map[2 := Fresh(s)], out := p.b.s.out, wire := p.b.s.wire,
                         cap := p.b.s.cap)
    ensures Leads(p, q) && q.b.opens == p.b.opens && q.b.popped == [] && q.b.s.events == s.events
    ensures SynFrame(1, []) in q.b.rcvd && !q.b.s.dead && !q.b.s.localGoaway
  {
    hide Leads, Process, Encode, HelloParams;
    var f := SynFrame(1, []);
    RefusedSyn(p.b.s);
    Travels(p, f, [2]);
    q := p.(a := DoAdvance(p.a, |Encode(f)|), b := Absorb(p.b, [f], Process(p.b.s, f, [2])));
  }

  lemma CrossedOpens() returns (ps: seq<Pair>)
    ensures PairRun(ps, RAW, NARROW)
    ensures var b := ps[|ps| - 1].b;
            && SynFrame(1, []) in b.rcvd && StreamOpened(1, []) !in Log(b)
            && b.opens == 1 && !b.s.dead && !b.s.localGoaway
  {
    hide Leads, PairInit, PairStep, PairRun, Begin, Encode, Process;
    Begins();
    var p := Meet();
    var q := BothOpen(p);
    var r := SynArrives(q, p.b.s);
    LeadsTrans(Begin(), p, q);
    LeadsTrans(Begin(), q, r);
    assert Log(r.b) == p.b.s.events;
    ps := LeadsRun(Begin(), r, RAW, NARROW);
  }
}
