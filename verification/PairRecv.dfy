/** Reception in a pair: one mux_recv, at any point of the byte stream, keeps the pair's invariant. */
module PairRecv {
  import opened Wire
  import opened Codec
  import opened Session
  import opened Trace
  import opened Node
  import opened NodeSteps
  import opened NodeControl
  import opened NodeRuns
  import opened NodeHonest
  import opened Recv
  import opened Closing
  import opened PairLaws
  import opened Pair
  import opened Welcome
  import opened Notices

  // ---------------------------------------------------------------- the log

  lemma {:induction false} LogGrows(log: seq<Event>, es: seq<Event>, sid: Sid)
    ensures TotalIn(log + es) == TotalIn(log) + TotalIn(es)
    ensures Hear(log, sid).data <= Hear(log + es, sid).data
    decreases |es|
  {
    if |es| == 0 {
      assert log + es == log;
    } else {
      var es', e := es[..|es| - 1], es[|es| - 1];
      LogGrows(log, es', sid);
      HearAppend(log + es', e, sid);
      HearAppend(es', e, sid);
      assert log + es == log + es' + [e] && es == es' + [e];
    }
  }

  // ---------------------------------------------------------------- the receiver after one frame

  /** What a step at `y` starts from. */
  ghost predicate Set(x: Node, y: Node, order: seq<Sid>) {
    Ready(x, y) && Good(y) && Enumerates(order, y.s.streams.Keys) && GoodConfig(y.s.cfg)
  }

  lemma OneLinked(x: Node, y: Node, order: seq<Sid>)
    requires Set(x, y, order)
    ensures Linked(x, Receive(y, NextFrame(x, y), order))
  {
    hide Inv, Good, Exact, Introduced, HostOk, Process, Enumerates;
    var f := NextFrame(x, y);
    ReceiveInv(y, f, order);
    NextFollows(x, y);
    TidyProcess(y.s, f, order);
  }

  lemma GreetedIntroduced(x: Node, y: Node, order: seq<Sid>)
    requires Set(x, y, order) && y.rcvd != []
    ensures Introduced(Receive(y, NextFrame(x, y), order))
  {
    hide Inv, Good, Exact, HostOk, Process, Enumerates, HelloPayload, ReadTlvs, NextFrame;
    var f := NextFrame(x, y);
    NextGreeting(x, y);
    TidyProcess(y.s, f, order);
  }

  /** The acceptor answers the first greeting with its own, or dies. */
  lemma FirstAnswer(s: Session, f: Frame)
    requires GoodConfig(s.cfg) && !s.dead && !s.helloSeen && f.sid == SID_CONTROL
    ensures var s1 := OnHello(s, f, false);
            s.role.Acceptor? && !s.helloSent && s.wire == [] && !s1.dead ==>
                s1.helloSeen && s1.wire == [HelloFrame(s, true)]
    ensures var s1 := OnHello(s, f, false); s1.dead ==> s1.wire == s.wire
    ensures var s1 := OnHello(s, f, false); s1.cfg == s.cfg && s1.role == s.role && (!s1.dead ==> s1.helloSeen)
    ensures var s1 := OnHello(s, f, true);
            s1.wire == s.wire && s1.cfg == s.cfg && s1.role == s.role && (!s1.dead ==> s1.helloSeen)
    ensures var s1 := OnHello(s, f, false); s1.dead && !s1.helloSeen ==> s1.helloSent == s.helloSent
  {
    hide Encode, GrowTo, ReadTlvs, HelloPayload;
  }

  lemma FreshIntroduced(x: Node, y: Node, order: seq<Sid>)
    requires Set(x, y, order) && y.rcvd == []
    ensures Introduced(Receive(y, NextFrame(x, y), order))
  {
    hide Inv, Good, Exact, HostOk, Enumerates, HelloPayload, ReadTlvs, OnHello, OnSyn, OnStreamData, OnWindowUpdate,
      OnPing, OnGoAway, OnCapacity;
    var f := NextFrame(x, y);
    NextGreeting(x, y);
    FirstAnswer(y.s, f);
    if y.s.role.Dialer? {
      TidyProcess(y.s, f, order);
    }
  }

  lemma OneHostOk(x: Node, y: Node, order: seq<Sid>)
    requires Set(x, y, order) && HostOk(y)
    ensures HostOk(Receive(y, NextFrame(x, y), order))
  {
    hide Inv, Good, Exact, Introduced, Process, Enumerates, TotalIn, Hear, NextFrame;
    var f := NextFrame(x, y);
    var n' := Receive(y, f, order);
    TidyProcess(y.s, f, order);
    var es := n'.s.events[|y.s.events|..];
    assert n'.s.events == y.s.events + es;
    assert Log(n') == Log(y) + es;
    LogGrows(Log(y), es, SID_CONTROL);
    forall sid: Sid ensures Consumed(n', sid) <= |Hear(Log(n'), sid).data| {
      LogGrows(Log(y), es, sid);
    }
  }

  /** The frame adds to the log what it delivers, and no violation. */
  lemma OneLog(x: Node, y: Node, order: seq<Sid>)
    requires Set(x, y, order) && NoViolation(y)
    ensures NoViolation(Receive(y, NextFrame(x, y), order))
    ensures var f := NextFrame(x, y);
            TotalIn(Log(Receive(y, f, order))) == TotalIn(Log(y))
              + if CarriesBytes(f) && f.sid in y.s.streams then |f.payload| else 0
  {
    hide Inv, Good, Exact, Introduced, Process, Enumerates, TotalIn, NextFrame;
    var f := NextFrame(x, y);
    var n' := Receive(y, f, order);
    NextClean(x, y, order);
    var es := n'.s.events[|y.s.events|..];
    assert n'.s.events == y.s.events + es;
    assert Log(n') == Log(y) + es;
    LogGrows(Log(y), es, SID_CONTROL);
  }

  lemma RstSeen(w: seq<Frame>, sid: Sid)
    requires NoRst(w)
    ensures !Tr(w, sid).rst
    decreases |w|
  {
    if |w| > 0 {
      var p := w[..|w| - 1];
      assert forall f :: f in p ==> f in w;
      assert w[|w| - 1] in w;
      RstSeen(p, sid);
    }
  }

  /** Without resets, bytes that arrive find their stream. */
  lemma NothingDropped(x: Node, y: Node)
    requires Ready(x, y) && NoRst(y.s.wire) && NoRst(y.rcvd)
    requires CarriesBytes(NextFrame(x, y)) && |NextFrame(x, y).payload| > 0
    ensures NextFrame(x, y).sid in y.s.streams
  {
    hide SessOk, WireOk, EncodeAll, Exact, Introduced, HostOk, Tr, Hear, NoRst, LastSyn, Used;
    var f := NextFrame(x, y);
    NextPolite(x, y);
    assert SidOk(y, f.sid);
    RstSeen(y.s.wire, f.sid);
    RstSeen(y.rcvd, f.sid);
  }

  lemma OneDropOk(x: Node, y: Node, order: seq<Sid>)
    requires Set(x, y, order) && NoViolation(y) && DropOk(y)
    ensures DropOk(Receive(y, NextFrame(x, y), order))
  {
    hide Inv, Good, Exact, Introduced, HostOk, Process, Enumerates, TotalIn, TotalData, NextFrame;
    var f := NextFrame(x, y);
    var n' := Receive(y, f, order);
    OneLog(x, y, order);
    TidyProcess(y.s, f, order);
    if !n'.s.dead && NoRst(n'.s.wire) && NoRst(n'.rcvd) {
      assert forall g :: g in y.s.wire ==> g in n'.s.wire;
      assert forall g :: g in y.rcvd ==> g in n'.rcvd;
      TotalAppend(y.rcvd, f);
      if CarriesBytes(f) && |f.payload| > 0 {
        NothingDropped(x, y);
      }
    }
  }

  lemma OneCapOk(x: Node, y: Node, order: seq<Sid>)
    requires Set(x, y, order) && CapOk(y)
    ensures CapOk(Receive(y, NextFrame(x, y), order))
  {
    hide Inv, Good, Exact, Introduced, HostOk, Process, Enumerates, CapOk, NextFrame;
    var f := NextFrame(x, y);
    var n' := Receive(y, f, order);
    ReceiveInv(y, f, order);
    TidyProcess(y.s, f, order);
    NextGreeting(x, y);
    forall k | |y.s.wire| <= k < |n'.s.wire| ensures !IsSyn(n'.s.wire[k]) {
      NoNewSyn(y, n', k);
    }
    if IsHello(f) {
      forall k | 0 <= k < |n'.s.wire| ensures !IsSyn(n'.s.wire[k]) {
        if k < |y.s.wire| {
          NoEarlySyn(y, k);
          assert n'.s.wire[k] == y.s.wire[k];
        }
      }
      NoSynCapOk(n');
    } else {
      ProcessKeepsPeer(y.s, f, order);
      CapKept(y, n');
    }
  }

  lemma NoSynCapOk(n: Node)
    requires forall k :: 0 <= k < |n.s.wire| ==> !IsSyn(n.s.wire[k])
    ensures CapOk(n)
  {
  }

  lemma OneClosedOnce(x: Node, y: Node, order: seq<Sid>)
    requires Set(x, y, order) && ClosedOnce(y)
    ensures ClosedOnce(Receive(y, NextFrame(x, y), order))
  {
    hide Inv, Good, Exact, Introduced, HostOk, Receive, Enumerates, ClosedOnce, NextFrame, MayFollow;
    NextFollows(x, y);
    DisciplinedClosings(y, x.s.role, NextFrame(x, y), order);
  }

  /** One frame of the peer, processed, keeps everything. */
  lemma OneFrame(x: Node, y: Node, order: seq<Sid>)
    requires Set(x, y, order) && Good(x)
    ensures Linked(x, Receive(y, NextFrame(x, y), order)) && Good(Receive(y, NextFrame(x, y), order))
  {
    hide Inv, MarksOk, Introduced, Exact, HostOk, NoViolation, DropOk, CapOk, ClosedOnce, Welcomed, Noted, Receive,
      NextFrame, Disciplined, Polite, Enumerates;
    var f := NextFrame(x, y);
    OneLinked(x, y, order);
    StepMarks(y, PeerFrame(f, order));
    LinkedDisciplined(x, y);
    NextPolite(x, y);
    ReceiveExact(y, f, order);
    if y.rcvd == [] {
      FreshIntroduced(x, y, order);
    } else {
      GreetedIntroduced(x, y, order);
    }
    OneHostOk(x, y, order);
    OneLog(x, y, order);
    OneDropOk(x, y, order);
    OneCapOk(x, y, order);
    OneClosedOnce(x, y, order);
    OneWelcomed(x, y, order);
    ReceiveNoted(y, f, order);
  }

  // ---------------------------------------------------------------- one mux_recv

  /** The bytes that arrived, those on their way and those still pending encode the frames to come. */
  lemma LinkBytes(x: Node, y: Node, l: Link)
    requires OutOk(x) && y.rcvd <= x.s.wire && LinkOk(x, y, l)
    ensures l.tail + (l.transit + x.s.out) == EncodeAll(x.s.wire[|y.rcvd|..])
  {
    hide EncodeAll;
    var rest := x.s.wire[|y.rcvd|..];
    assert x.s.wire == y.rcvd + rest;
    EncodeAllConcat(y.rcvd, rest);
    var e := EncodeAll(y.rcvd);
    assert e + EncodeAll(rest) == e + (l.tail + (l.transit + x.s.out));
    assert EncodeAll(rest) == (e + EncodeAll(rest))[|e|..];
  }

  /** What mux_recv decodes next is the next frame of the peer. */
  lemma NextParsed(x: Node, y: Node, l: Link)
    requires Linked(x, y) && LinkOk(x, y, l)
    ensures !Parse(l.tail).Bad?
    ensures Parse(l.tail).Parsed? ==>
              && |y.rcvd| < |x.s.wire|
              && Parse(l.tail) == Parsed(NextFrame(x, y), |Encode(NextFrame(x, y))|)
              && |Encode(NextFrame(x, y))| <= |l.tail|
  {
    hide SessOk, SidOk, WireOk, Parse, Encode, EncodeAll;
    LinkBytes(x, y, l);
    HonestParse(l.tail, l.transit + x.s.out, x.s.wire[|y.rcvd|..]);
  }

  lemma LinkTakes(x: Node, y: Node, l: Link, f: Frame)
    requires LinkOk(x, y, l) && Parse(l.tail) == Parsed(f, |Encode(f)|) && |Encode(f)| <= |l.tail|
    ensures x.taken == EncodeAll(y.rcvd + [f]) + l.tail[|Encode(f)|..] + l.transit
  {
    hide Parse, Encode, EncodeAll;
    TakesPrefix(l.tail, f);
    EncodeAppend(y.rcvd, f);
    assert l.tail == Encode(f) + l.tail[|Encode(f)|..];
  }

  ghost predicate RecvInv(x: Node, y: Node, l: Link) {
    Linked(x, y) && Good(x) && Good(y) && LinkOk(x, y, l)
  }

  lemma InvReady(x: Node, y: Node, order: seq<Sid>)
    requires Linked(x, y) && Good(x) && Good(y) && !y.s.dead && |y.rcvd| < |x.s.wire|
    requires Enumerates(order, y.s.streams.Keys)
    ensures Set(x, y, order)
  {
    hide Linked, MarksOk, Exact, HostOk, NoViolation, DropOk, CapOk, ClosedOnce, Welcomed, Noted, Enumerates,
      HelloPayload, ReadTlvs;
  }

  /** The call ends: nothing happened, or the next frame killed the session. */
  lemma StopsInv(x: Node, y: Node, l: Link, s: Session)
    requires RecvInv(x, y, l) && Stops(y.s, l.tail, s)
    ensures RecvInv(x, Absorb(y, [], s), l)
  {
    hide Linked, Good, Parse, Process, EncodeAll, Enumerates;
    NextParsed(x, y, l);
    var y' := Absorb(y, [], s);
    if !Active(y.s, l.tail) || Parse(l.tail).Short? {
      assert y' == y;
    } else {
      var f := NextFrame(x, y);
      var order :| Enumerates(order, y.s.streams.Keys) && s == Process(y.s, f, order);
      InvReady(x, y, order);
      OneFrame(x, y, order);
      assert y' == Receive(y, f, order);
    }
  }

  lemma TakesInv(x: Node, y: Node, l: Link, f: Frame, s1: Session)
    requires RecvInv(x, y, l) && Takes(y.s, l.tail, f, s1)
    ensures RecvInv(x, Absorb(y, [f], s1), l.(tail := l.tail[|Encode(f)|..]))
    ensures s1.helloSeen
  {
    hide Linked, Good, Parse, Process, Encode, EncodeAll, Enumerates, ReadTlvs;
    NextParsed(x, y, l);
    var order :| Enumerates(order, y.s.streams.Keys) && s1 == Process(y.s, f, order);
    InvReady(x, y, order);
    OneFrame(x, y, order);
    var y' := Receive(y, f, order);
    SurvivorsGreeted(y, f, order);
    assert y' == Absorb(y, [f], s1);
    LinkTakes(x, y, l, f);
  }

  /** A session that survives a frame has been greeted. */
  lemma SurvivorsGreeted(n: Node, f: Frame, order: seq<Sid>)
    requires GoodConfig(n.s.cfg) && !n.s.dead && !Process(n.s, f, order).dead
    ensures Process(n.s, f, order).helloSeen
  {
    hide OnSyn, OnStreamData, OnWindowUpdate, OnPing, OnGoAway, OnCapacity, OnHello;
    TidyProcess(n.s, f, order);
    if !n.s.helloSeen {
      HelloGreets(n.s, f, false);
      HelloGreets(n.s, f, true);
    }
  }

  lemma HelloGreets(s: Session, f: Frame, ack: bool)
    requires GoodConfig(s.cfg) && !s.dead && !s.helloSeen
    ensures !OnHello(s, f, ack).dead ==> OnHello(s, f, ack).helloSeen
  {
    hide ReadTlvs, Encode, GrowTo, HelloPayload;
  }

  lemma AbsorbTwice(n: Node, f: Frame, s1: Session, fs: seq<Frame>, s2: Session)
    requires s1.helloSeen
    ensures Absorb(n, [f] + fs, s2) == Absorb(Absorb(n, [f], s1), fs, s2)
  {
    hide ReadTlvs;
    assert n.rcvd + ([f] + fs) == n.rcvd + [f] + fs;
  }

  /** A whole mux_recv, whatever the fragmentation, keeps the link's invariant. */
  lemma {:induction false} RecvRunInv(x: Node, y: Node, l: Link, fs: seq<Frame>, s: Session)
    requires RecvInv(x, y, l) && RecvRun(y.s, l.tail, fs, s)
    ensures EncodeAll(fs) <= l.tail
    ensures RecvInv(x, Absorb(y, fs, s), l.(tail := l.tail[|EncodeAll(fs)|..]))
    decreases |fs|
  {
    hide RecvInv, Stops, Processes, Parse, Encode, HelloParams;
    RecvConsumes(y.s, l.tail, fs, s);
    if fs == [] {
      StopsInv(x, y, l, s);
      assert EncodeAll(fs) == [] && l.tail[0..] == l.tail;
    } else {
      var f := fs[0];
      var s1 :| Takes(y.s, l.tail, f, s1) && RecvRun(s1, l.tail[|Encode(f)|..], fs[1..], s);
      TakesInv(x, y, l, f, s1);
      var y1, l1 := Absorb(y, [f], s1), l.(tail := l.tail[|Encode(f)|..]);
      RecvRunInv(x, y1, l1, fs[1..], s);
      assert fs == [f] + fs[1..];
      AbsorbTwice(y, f, s1, fs[1..], s);
      FirstEncoded(fs);
      assert l.tail[|EncodeAll(fs)|..] == l1.tail[|EncodeAll(fs[1..])|..];
    }
  }
}
