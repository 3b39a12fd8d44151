/** The main results: what holds in every state of every run of a dialer and an acceptor. */
module Theorems {
  import opened Wire
  import opened Codec
  import opened Session
  import opened Greeting
  import opened Trace
  import opened Node
  import opened NodeControl
  import opened NodeHonest
  import opened Recv
  import opened Closing
  import opened Emitting
  import opened Notices
  import opened PairLaws
  import opened Pair
  import opened PairRecv

  // ---------------------------------------------------------------- the invariant holds in every run

  lemma StartIntroduced(raw: Config, role: Role)
    requires New(raw, role).Some?
    ensures Introduced(Start(New(raw, role).value))
  {
    hide Encode, GrowTo, HelloPayload;
  }

  lemma StartGood(raw: Config, role: Role)
    requires New(raw, role).Some?
    ensures Good(Start(New(raw, role).value)) && Inv(Start(New(raw, role).value))
  {
    hide Inv, MarksOk, Introduced, Exact, CapOk, Encode, GrowTo, HelloPayload, Noted;
    var n := Start(New(raw, role).value);
    StartNoted(n.s);
    StartInv(raw, role);
    StartIntroduced(raw, role);
    StartExact(n.s);
    assert Log(n) == [];
    forall k | 0 <= k < |n.s.wire| ensures !IsSyn(n.s.wire[k]) {
    }
    NoSynCapOk(n);
  }

  lemma InitInv(p: Pair, rawA: Config, rawB: Config)
    requires PairInit(p, rawA, rawB)
    ensures PairInv(p)
  {
    hide Inv, Good, Encode, GrowTo, HelloPayload;
    StartGood(rawA, Dialer);
    StartGood(rawB, Acceptor);
    assert p.a.s.role == Dialer && p.b.s.role == Acceptor;
  }

  lemma RecvStepInv(p: Pair, fs: seq<Frame>, p': Pair)
    requires PairInv(p) && RecvStep(p, fs, p')
    ensures PairInv(p')
  {
    hide Good, Linked, RecvRun, EncodeAll;
    LinkedSym(p.a, p.b);
    RecvRunInv(p.b, p.a, p.ba, fs, p'.a.s);
    LinkedSym(p'.b, p'.a);
  }

  lemma SideStepInv(p: Pair, p': Pair)
    requires PairInv(p) && SideStep(p, p')
    ensures PairInv(p')
  {
    hide PairInv, HostStep, ArriveStep, RecvStep;
    if c :| HostStep(p, c, p') {
      HostStepInv(p, c, p');
    } else if k: nat :| ArriveStep(p, k, p') {
      ArriveStepInv(p, k, p');
    } else {
      var fs :| RecvStep(p, fs, p');
      RecvStepInv(p, fs, p');
    }
  }

  lemma PairStepInv(p: Pair, p': Pair)
    requires PairInv(p) && PairStep(p, p')
    ensures PairInv(p')
  {
    hide PairInv, SideStep;
    if SideStep(p, p') {
      SideStepInv(p, p');
    } else {
      SwapInv(p);
      SideStepInv(Swap(p), Swap(p'));
      SwapInv(Swap(p'));
    }
  }

  /** Every reachable state of the pair satisfies the invariant. */
  lemma {:induction false} PairRunInv(ps: seq<Pair>, rawA: Config, rawB: Config, i: nat)
    requires PairRun(ps, rawA, rawB) && i < |ps|
    ensures PairInv(ps[i])
    decreases i
  {
    hide PairInv, PairInit, PairStep;
    if i == 0 {
      InitInv(ps[0], rawA, rawB);
    } else {
      PairRunInv(ps, rawA, rawB, i - 1);
      assert PairStep(ps[i - 1], ps[i - 1 + 1]);
      PairStepInv(ps[i - 1], ps[i]);
    }
  }

  // ---------------------------------------------------------------- honest-pair safety

  /** Neither endpoint ever reports a PROTOCOL or FLOW_CONTROL violation by the other. */
  lemma HonestPairSafety(ps: seq<Pair>, rawA: Config, rawB: Config, i: nat, e: Event)
    requires PairRun(ps, rawA, rawB) && i < |ps|
    requires e in Log(ps[i].a) || e in Log(ps[i].b)
    ensures e != Fatal(CODE_PROTOCOL) && e != Fatal(CODE_FLOW_CONTROL)
  {
    hide PairRun, Linked, LinkOk, MarksOk, Introduced, Exact, HostOk, DropOk, CapOk, ClosedOnce, Welcomed, Noted;
    PairRunInv(ps, rawA, rawB, i);
  }

  // ---------------------------------------------------------------- sums over the frames in flight

  lemma {:induction false} TotalConcat(a: seq<Frame>, b: seq<Frame>)
    ensures TotalData(a + b) == TotalData(a) + TotalData(b)
    decreases |b|
  {
    if b == [] {
      assert a + b == a;
    } else {
      var b', f := b[..|b| - 1], b[|b| - 1];
      TotalConcat(a, b');
      assert a + b == a + b' + [f];
      TotalAppend(a + b', f);
    }
  }

  lemma {:induction false} TrConcat(a: seq<Frame>, b: seq<Frame>, sid: Sid)
    ensures Tr(a + b, sid).data == Tr(a, sid).data + Tr(b, sid).data
    ensures Tr(a + b, sid).credit == Tr(a, sid).credit + Tr(b, sid).credit
    decreases |b|
  {
    hide Tr, HasSyn, HasFin, HasRst, Get32;
    if b == [] {
      assert a + b == a;
      Nothing(sid);
    } else {
      var b', f := b[..|b| - 1], b[|b| - 1];
      TrConcat(a, b', sid);
      assert a + b == a + b' + [f] && b == b' + [f];
      TrAppend(a + b', f, sid);
      TrAppend(b', f, sid);
    }
  }

  /** Frames emitted by `x` that `y` has not processed. */
  function Flight(x: Node, y: Node): seq<Frame>
    requires |y.rcvd| <= |x.s.wire|
  {
    x.s.wire[|y.rcvd|..]
  }

  lemma FlightSums(x: Node, y: Node, sid: Sid)
    requires y.rcvd <= x.s.wire
    ensures TotalData(x.s.wire) == TotalData(y.rcvd) + TotalData(Flight(x, y))
    ensures Tr(x.s.wire, sid).data == Tr(y.rcvd, sid).data + Tr(Flight(x, y), sid).data
    ensures Tr(x.s.wire, sid).credit == Tr(y.rcvd, sid).credit + Tr(Flight(x, y), sid).credit
  {
    hide Tr, TotalData;
    assert x.s.wire == y.rcvd + Flight(x, y);
    TotalConcat(y.rcvd, Flight(x, y));
    TrConcat(y.rcvd, Flight(x, y), sid);
  }

  // ---------------------------------------------------------------- credit conservation

  /** Connection credit from `x` to `y` is neither created nor lost: what `x` may still send, the bytes
      and the grants in flight, and what `y` discarded, add up to what `y` is ready to receive. */
  ghost predicate SessionConserved(x: Node, y: Node)
    requires |y.rcvd| <= |x.s.wire| && |x.rcvd| <= |y.s.wire|
  {
    x.s.sendWin + TotalData(Flight(x, y)) + Tr(Flight(y, x), SID_CONTROL).credit + Dropped(y) == y.s.recvWin
  }

  lemma SessionConservation(x: Node, y: Node)
    requires Linked(x, y) && Introduced(x) && Introduced(y) && !x.s.dead && x.rcvd != []
    ensures SessionConserved(x, y)
  {
    hide SidOk, WireOk, EncodeAll, Tr, TotalData, TotalIn, LastSyn, HelloOk, IdsOk, Introduced;
    LinkedSym(x, y);
    PeerKnown(y, x);
    FlightSums(x, y, SID_CONTROL);
    FlightSums(y, x, SID_CONTROL);
  }

  /** The same for one stream that both ends have, where nothing can be discarded. */
  ghost predicate StreamConserved(x: Node, y: Node, sid: Sid)
    requires |y.rcvd| <= |x.s.wire| && |x.rcvd| <= |y.s.wire| && sid in x.s.streams && sid in y.s.streams
  {
    x.s.streams[sid].sendWin + |Tr(Flight(x, y), sid).data| + Tr(Flight(y, x), sid).credit
      == y.s.streams[sid].recvWin
  }

  lemma StreamConservation(x: Node, y: Node, sid: Sid)
    requires Linked(x, y) && Introduced(x) && Introduced(y) && Exact(x) && Exact(y) && !x.s.dead
    requires sid in x.s.streams && sid in y.s.streams
    ensures StreamConserved(x, y, sid)
  {
    hide SessOk, WireOk, EncodeAll, Tr, Hear, Introduced;
    assert SidOk(x, sid) && SidOk(y, sid) && ExactSid(x, sid) && ExactSid(y, sid);
    LinkedSym(x, y);
    LiveGreeted(x, sid);
    PeerKnown(y, x);
    FlightSums(x, y, sid);
    FlightSums(y, x, sid);
  }

  lemma LiveGreeted(n: Node, sid: Sid)
    requires Inv(n) && sid in n.s.streams
    ensures n.rcvd != []
  {
    hide SidOk, WireOk, EncodeAll, FlowOk, TotalData, LastSyn;
  }

  /** Two-endpoint credit conservation, in both directions, in every reachable state. */
  lemma CreditConservation(ps: seq<Pair>, rawA: Config, rawB: Config, i: nat, sid: Sid)
    requires PairRun(ps, rawA, rawB) && i < |ps|
    ensures var p := ps[i];
            && |p.b.rcvd| <= |p.a.s.wire| && |p.a.rcvd| <= |p.b.s.wire|
            && (!p.a.s.dead && p.a.rcvd != [] ==> SessionConserved(p.a, p.b))
            && (!p.b.s.dead && p.b.rcvd != [] ==> SessionConserved(p.b, p.a))
            && (sid in p.a.s.streams && sid in p.b.s.streams ==>
                  (!p.a.s.dead ==> StreamConserved(p.a, p.b, sid)) && (!p.b.s.dead ==> StreamConserved(p.b, p.a, sid)))
  {
    hide PairRun, Inv, MarksOk, Introduced, Exact, HostOk, NoViolation, DropOk, CapOk, ClosedOnce, Welcomed, Noted,
      SessionConserved, StreamConserved;
    PairRunInv(ps, rawA, rawB, i);
    var p := ps[i];
    LinkedSym(p.a, p.b);
    if !p.a.s.dead && p.a.rcvd != [] {
      SessionConservation(p.a, p.b);
    }
    if !p.b.s.dead && p.b.rcvd != [] {
      SessionConservation(p.b, p.a);
    }
    if sid in p.a.s.streams && sid in p.b.s.streams {
      if !p.a.s.dead { StreamConservation(p.a, p.b, sid); }
      if !p.b.s.dead { StreamConservation(p.b, p.a, sid); }
    }
  }

  // ---------------------------------------------------------------- end-to-end integrity

  /** On a disciplined wire the bytes before a FIN are all the bytes. */
  lemma {:induction false} FinIsFinal(role: Role, p: seq<Frame>, w: seq<Frame>, sid: Sid)
    requires WireOk(role, w) && p <= w && Tr(p, sid).fin
    ensures Tr(p, sid).data == Tr(w, sid).data
    decreases |w|
  {
    hide Tr, LastSyn;
    if |p| < |w| {
      var w', f := w[..|w| - 1], w[|w| - 1];
      assert MayFollow(role, w', f);
      WireOkPrefix(role, w', w);
      assert p <= w';
      FinIsFinal(role, p, w', sid);
      TrPrefix(p, w', sid);
      assert w == w' + [f];
      TrAppend(w', f, sid);
    } else {
      assert p == w;
    }
  }

  /** What `y` reported of a stream is a prefix of what `x` accepted for it; all of it, once closed. */
  lemma StreamIntact(x: Node, y: Node, sid: Sid)
    requires Linked(x, y) && Exact(y)
    ensures Hear(Log(y), sid).data <= Wrote(x, sid)
    ensures Hear(Log(y), sid).closed ==> Hear(Log(y), sid).data == Wrote(x, sid)
  {
    hide SessOk, WireOk, EncodeAll, Tr, Hear;
    assert SidOk(x, sid) && ExactSid(y, sid);
    TrPrefix(y.rcvd, x.s.wire, sid);
    if Hear(Log(y), sid).closed {
      FinIsFinal(x.s.role, y.rcvd, x.s.wire, sid);
    }
  }

  /** End-to-end stream integrity, for every stream and direction, in every reachable state. */
  lemma StreamIntegrity(ps: seq<Pair>, rawA: Config, rawB: Config, i: nat, sid: Sid)
    requires PairRun(ps, rawA, rawB) && i < |ps|
    ensures var a, b := ps[i].a, ps[i].b;
            && Hear(Log(b), sid).data <= Wrote(a, sid)
            && Hear(Log(a), sid).data <= Wrote(b, sid)
            && (Hear(Log(b), sid).closed ==> Hear(Log(b), sid).data == Wrote(a, sid))
            && (Hear(Log(a), sid).closed ==> Hear(Log(a), sid).data == Wrote(b, sid))
  {
    hide PairRun, Linked, MarksOk, Introduced, Exact, HostOk, NoViolation, DropOk, CapOk, ClosedOnce, Welcomed, Noted;
    PairRunInv(ps, rawA, rawB, i);
    LinkedSym(ps[i].a, ps[i].b);
    StreamIntact(ps[i].a, ps[i].b, sid);
    StreamIntact(ps[i].b, ps[i].a, sid);
  }

  // ---------------------------------------------------------------- no stall at quiescence

  /** Nothing is on its way from `x` to `y`. */
  predicate Drained(x: Node, l: Link) { x.s.out == [] && l.transit == [] && l.tail == [] }

  /** The host has consumed everything reported to it. */
  ghost predicate AllConsumed(n: Node) {
    && n.consumedTotal == TotalIn(Log(n))
    && forall sid :: sid in n.s.streams ==> Consumed(n, sid) == |Hear(Log(n), sid).data|
  }

  lemma DrainedMeansProcessed(x: Node, y: Node, l: Link)
    requires OutOk(x) && y.rcvd <= x.s.wire && LinkOk(x, y, l) && Drained(x, l)
    ensures y.rcvd == x.s.wire
  {
    hide EncodeAll;
    LinkBytes(x, y, l);
    NothingEncoded(x.s.wire[|y.rcvd|..]);
  }

  lemma NothingEncoded(fs: seq<Frame>)
    requires EncodeAll(fs) == []
    ensures fs == []
  {
    if fs != [] {
      FirstEncoded(fs);
    }
  }

  /** With nothing in flight both ends have the same streams. */
  lemma SameStreams(x: Node, y: Node, sid: Sid)
    requires Linked(x, y) && Exact(x) && !y.s.dead && y.rcvd == x.s.wire && x.rcvd == y.s.wire
    requires sid in x.s.streams
    ensures sid in y.s.streams
  {
    hide SessOk, WireOk, EncodeAll, Tr, Hear;
    assert SidOk(x, sid) && SidOk(y, sid) && ExactSid(x, sid);
  }

  /** The connection window of `x` towards `y` once nothing is in flight and `y` has consumed everything. */
  lemma QuietWindow(x: Node, y: Node)
    requires Linked(x, y) && Introduced(x) && Introduced(y) && !x.s.dead && !y.s.dead && x.rcvd != []
    requires y.rcvd == x.s.wire && x.rcvd == y.s.wire && AllConsumed(y)
    ensures x.s.sendWin == y.s.cfg.sessionWindow - y.s.recvPending - Dropped(y)
  {
    hide SidOk, WireOk, EncodeAll, Tr, TotalIn, LastSyn, HelloOk, IdsOk, Introduced, TotalData;
    SessionConservation(x, y);
    NothingInFlight(x, y, SID_CONTROL);
  }

  lemma NothingInFlight(x: Node, y: Node, sid: Sid)
    requires y.rcvd == x.s.wire && x.rcvd == y.s.wire
    ensures TotalData(Flight(x, y)) == 0 && Tr(Flight(x, y), sid) == ZERO && Tr(Flight(y, x), sid) == ZERO
  {
    assert Flight(x, y) == [] && Flight(y, x) == [];
  }

  lemma QuietStream(x: Node, y: Node, sid: Sid)
    requires Linked(x, y) && Introduced(x) && Introduced(y) && Exact(x) && Exact(y) && !x.s.dead && !y.s.dead
    requires y.rcvd == x.s.wire && x.rcvd == y.s.wire && MarksOk(y) && AllConsumed(y) && sid in x.s.streams
    ensures x.s.streams[sid].sendWin > 0 && (x.s.sendWin > 0 ==> !x.s.streams[sid].blocked)
  {
    hide SessOk, WireOk, EncodeAll, Tr, Hear, Introduced, Exact, TotalIn;
    SameStreams(x, y, sid);
    StreamConservation(x, y, sid);
    NothingInFlight(x, y, sid);
    assert SidOk(x, sid) && SidOk(y, sid);
    ConfigWindow(y);
  }

  lemma ConfigWindow(n: Node)
    requires Inv(n)
    ensures n.s.cfg.initWindow > 0
  {
    hide SidOk, WireOk, EncodeAll, IdsOk, HelloOk, FlowOk;
  }

  /** Both channels are drained and both hosts have consumed everything. */
  ghost predicate Quiescent(p: Pair) {
    && !p.a.s.dead && !p.b.s.dead && p.a.rcvd != [] && p.b.rcvd != []
    && Drained(p.a, p.ab) && Drained(p.b, p.ba) && AllConsumed(p.a) && AllConsumed(p.b)
  }

  /** Every window is open and no stream waits for a wake-up. */
  ghost predicate Open(n: Node) {
    n.s.sendWin > 0 && forall sid :: sid in n.s.streams ==> n.s.streams[sid].sendWin > 0 && !n.s.streams[sid].blocked
  }

  lemma QuietOpen(x: Node, y: Node)
    requires Linked(x, y) && Good(x) && Good(y) && !x.s.dead && !y.s.dead && x.rcvd != []
    requires y.rcvd == x.s.wire && x.rcvd == y.s.wire && AllConsumed(y)
    ensures x.s.sendWin == y.s.cfg.sessionWindow - y.s.recvPending - Dropped(y)
    ensures Open(x) <==> Dropped(y) < y.s.cfg.sessionWindow - y.s.recvPending
    ensures forall sid :: sid in x.s.streams ==> x.s.streams[sid].sendWin > 0
  {
    hide Linked, MarksOk, Introduced, Exact, HostOk, NoViolation, DropOk, CapOk, ClosedOnce, Welcomed, Noted,
      AllConsumed, Dropped;
    QuietWindow(x, y);
    forall sid | sid in x.s.streams
      ensures x.s.streams[sid].sendWin > 0 && (x.s.sendWin > 0 ==> !x.s.streams[sid].blocked)
    {
      QuietStream(x, y, sid);
    }
  }

  /** What a window is worth at quiescence, resets and refusals included: the peer's whole window less the
      credit it still holds back and less the bytes it dropped for streams it no longer had. So nothing is
      stalled if and only if fewer bytes were dropped than the window has left. */
  lemma NoStallAtQuiescence(ps: seq<Pair>, rawA: Config, rawB: Config, i: nat)
    requires PairRun(ps, rawA, rawB) && i < |ps| && Quiescent(ps[i])
    ensures var a, b := ps[i].a, ps[i].b;
            && a.s.sendWin == b.s.cfg.sessionWindow - b.s.recvPending - Dropped(b)
            && b.s.sendWin == a.s.cfg.sessionWindow - a.s.recvPending - Dropped(a)
            && (Open(a) <==> Dropped(b) < b.s.cfg.sessionWindow - b.s.recvPending)
            && (Open(b) <==> Dropped(a) < a.s.cfg.sessionWindow - a.s.recvPending)
  {
    hide PairRun, SessOk, SidOk, WireOk, EncodeAll, Good, AllConsumed, Dropped, Open;
    PairRunInv(ps, rawA, rawB, i);
    var p := ps[i];
    LinkedSym(p.a, p.b);
    DrainedMeansProcessed(p.a, p.b, p.ab);
    DrainedMeansProcessed(p.b, p.a, p.ba);
    QuietOpen(p.a, p.b);
    QuietOpen(p.b, p.a);
  }

  lemma NothingLost(n: Node)
    requires Inv(n) && MarksOk(n) && DropOk(n) && !n.s.dead && NoRst(n.s.wire) && NoRst(n.rcvd)
    ensures Dropped(n) < n.s.cfg.sessionWindow - n.s.recvPending
  {
    hide SidOk, WireOk, EncodeAll, IdsOk, HelloOk, FlowOk, NoRst, Dropped;
  }

  /** Without resets and refusals nothing is dropped, and so nothing stalls. */
  lemma NoStallWithoutResets(ps: seq<Pair>, rawA: Config, rawB: Config, i: nat)
    requires PairRun(ps, rawA, rawB) && i < |ps| && Quiescent(ps[i])
    requires NoRst(ps[i].a.s.wire) && NoRst(ps[i].b.s.wire)
    ensures Open(ps[i].a) && Open(ps[i].b)
  {
    hide PairRun, Inv, AllConsumed, EncodeAll, NoRst, Dropped, Open, MarksOk, Introduced, Exact, HostOk, NoViolation,
      DropOk, CapOk, ClosedOnce, Welcomed, Noted;
    PairRunInv(ps, rawA, rawB, i);
    NoStallAtQuiescence(ps, rawA, rawB, i);
    var p := ps[i];
    DrainedBoth(p);
    NothingLost(p.a);
    NothingLost(p.b);
  }

  lemma DrainedBoth(p: Pair)
    requires PairInv(p) && Drained(p.a, p.ab) && Drained(p.b, p.ba)
    ensures p.b.rcvd == p.a.s.wire && p.a.rcvd == p.b.s.wire
  {
    hide Good, SessOk, SidOk, WireOk, EncodeAll;
    LinkedSym(p.a, p.b);
    DrainedMeansProcessed(p.a, p.b, p.ab);
    DrainedMeansProcessed(p.b, p.a, p.ba);
  }

  // ---------------------------------------------------------------- closed once

  /** A stream is reported closed at most once at either end. */
  lemma ClosedAtMostOnce(ps: seq<Pair>, rawA: Config, rawB: Config, i: nat, sid: Sid)
    requires PairRun(ps, rawA, rawB) && i < |ps|
    ensures Closings(Log(ps[i].a), sid) <= 1 && Closings(Log(ps[i].b), sid) <= 1
  {
    hide PairRun, Linked, LinkOk, MarksOk, Introduced, Exact, HostOk, NoViolation, DropOk, CapOk, Noted, Closings;
    PairRunInv(ps, rawA, rawB, i);
  }

  // ---------------------------------------------------------------- what is said besides bytes

  /** What `y` was told, `x` said. */
  ghost predicate Understands(x: Node, y: Node) {
    && (forall e :: e in Log(y) && (e.StreamOpened? || e.Capacity? || e.GoAway?) ==> e in x.told)
    && Heeds(Log(y)) <= Heeds(x.told)
    && (forall info :: PeerHello(info) in Log(y) && y.rcvd != [] ==> info == Learned(x.s.cfg).info)
    && (forall sid, code :: StreamReset(sid, code) in Log(y) && code != CODE_NO_ERROR ==>
          if sid in x.cuts then code == x.cuts[sid] else code in OWN_CODES)
  }

  lemma OneUnderstands(x: Node, y: Node)
    requires Linked(x, y) && Introduced(x) && Introduced(y) && Noted(x) && Noted(y)
    ensures Understands(x, y)
  {
    hide Inv, Introduced, PingsOk, Heeds, Said, KindOf, CodeOf;
    SaidPrefix(y.rcvd, x.s.wire);
    HeedsPrefix(Said(y.rcvd), x.told);
    if y.rcvd != [] {
      PeerKnown(x, y);
    }
    forall sid, code | StreamReset(sid, code) in Log(y) && code != CODE_NO_ERROR
      ensures if sid in x.cuts then code == x.cuts[sid] else code in OWN_CODES
    {
      assert Backed(y, StreamReset(sid, code));
      var f :| f in y.rcvd && KindOf(f) == Abort && f.sid == sid && CodeOf(f) == code;
      assert f in x.s.wire && CutOk(x, f);
    }
  }

  /** In every state of every run: an end reports a stream opened only with the metadata the other host gave
      mux_open for that id, capacity and leaving as that host announced them and in that order, that session's own
      greeting, and a reset with the code that host gave, unless the session itself reset the stream. */
  lemma NoticeIntegrity(ps: seq<Pair>, rawA: Config, rawB: Config, i: nat)
    requires PairRun(ps, rawA, rawB) && i < |ps|
    ensures Understands(ps[i].a, ps[i].b) && Understands(ps[i].b, ps[i].a)
  {
    hide PairRun, Linked, LinkOk, MarksOk, Introduced, Exact, HostOk, NoViolation, DropOk, CapOk, ClosedOnce, Welcomed,
      Noted, Understands;
    PairRunInv(ps, rawA, rawB, i);
    LinkedSym(ps[i].a, ps[i].b);
    OneUnderstands(ps[i].a, ps[i].b);
    OneUnderstands(ps[i].b, ps[i].a);
  }

  /** For each id there is at most one opening among what was told. */
  lemma OneOpening(n: Node, sid: Sid, m: seq<Byte>, m': seq<Byte>)
    requires Inv(n) && Noted(n) && StreamOpened(sid, m) in n.told && StreamOpened(sid, m') in n.told
    ensures m == m'
  {
    hide SessOk, SidOk, EncodeAll, WireOk, Said, CutsOk, PingsOk, ReportsOk;
    OpenedOnce(n.s.role, n.s.wire, sid, m, m');
  }

  lemma {:induction false} OpenedOnce(role: Role, w: seq<Frame>, sid: Sid, m: seq<Byte>, m': seq<Byte>)
    requires WireOk(role, w) && StreamOpened(sid, m) in Said(w) && StreamOpened(sid, m') in Said(w)
    ensures m == m'
    decreases |w|
  {
    hide HasSyn, HasFin, HasRst, Get32, Tr, LastSyn;
    var p, f := w[..|w| - 1], w[|w| - 1];
    assert MayFollow(role, p, f);
    forall k | 0 <= k < |p| ensures MayFollow(role, p[..k], p[k]) {
      assert w[..k] == p[..k] && MayFollow(role, w[..k], w[k]);
    }
    if StreamOpened(sid, m) in Said(p) && StreamOpened(sid, m') in Said(p) {
      OpenedOnce(role, p, sid, m, m');
    } else if StreamOpened(sid, m) in Said(p) {
      OpenedAny(p, sid, m);
    } else if StreamOpened(sid, m') in Said(p) {
      OpenedAny(p, sid, m');
    }
  }

  lemma {:induction false} OpenedAny(w: seq<Frame>, sid: Sid, m: seq<Byte>)
    requires StreamOpened(sid, m) in Said(w)
    ensures Tr(w, sid).any
    decreases |w|
  {
    hide HasSyn, HasFin, HasRst, Get32;
    var p := w[..|w| - 1];
    if StreamOpened(sid, m) in Said(p) {
      OpenedAny(p, sid, m);
    }
  }

  /** What mux_open records: under the id it returned, the metadata it was given, and nothing is taken back. */
  lemma OpenRecords(n: Node, meta: seq<Byte>)
    ensures var r := OpenStream(n.s, meta).1;
            && n.told <= Do(n, CallOpen(meta)).told
            && (r >= 0 ==> Do(n, CallOpen(meta)).told == n.told + [StreamOpened(r, meta)])
  {
    hide Encode, GrowTo;
  }

  /** The answers an end has received are those to its own pings, in the order in which it sent them: the i-th
      carries number i. */
  lemma PingsAnsweredInOrder(ps: seq<Pair>, rawA: Config, rawB: Config, i: nat)
    requires PairRun(ps, rawA, rawB) && i < |ps|
    ensures var a, b := ps[i].a, ps[i].b;
            && Payloads(a.rcvd, Answer) <= Payloads(a.s.wire, Ping)
            && Payloads(b.rcvd, Answer) <= Payloads(b.s.wire, Ping)
            && (forall j :: 0 <= j < |Payloads(a.rcvd, Answer)| ==>
                  Payloads(a.rcvd, Answer)[j] == PingFrame(j % U64_LIMIT).payload)
            && (forall j :: 0 <= j < |Payloads(b.rcvd, Answer)| ==>
                  Payloads(b.rcvd, Answer)[j] == PingFrame(j % U64_LIMIT).payload)
  {
    hide PairRun, Inv, LinkOk, MarksOk, Introduced, Exact, HostOk, NoViolation, DropOk, CapOk, ClosedOnce, Welcomed,
      ToldOk, CutsOk, ReportsOk, Payloads, PingFrame;
    PairRunInv(ps, rawA, rawB, i);
    var a, b := ps[i].a, ps[i].b;
    SaidPrefix(a.rcvd, b.s.wire);
    SaidPrefix(b.rcvd, a.s.wire);
  }

  // ---------------------------------------------------------------- the local MAX_STREAMS check

  /** The local MAX_STREAMS check is sound: while an end neither opens streams nor drains, every SYN it has
      processed was let in, wherever in a mux_recv it came. */
  lemma MaxStreamsSound(ps: seq<Pair>, rawA: Config, rawB: Config, i: nat, f: Frame)
    requires PairRun(ps, rawA, rawB) && i < |ps| && IsSyn(f)
    ensures var a, b := ps[i].a, ps[i].b;
            && (b.opens == 0 && !b.s.localGoaway && f in b.rcvd ==> StreamOpened(f.sid, f.payload) in Log(b))
            && (a.opens == 0 && !a.s.localGoaway && f in a.rcvd ==> StreamOpened(f.sid, f.payload) in Log(a))
  {
    hide PairRun, Linked, LinkOk, MarksOk, Introduced, Exact, HostOk, NoViolation, DropOk, CapOk, ClosedOnce, Noted;
    PairRunInv(ps, rawA, rawB, i);
  }

  // ---------------------------------------------------------------- the hypotheses are needed

  /** The id a dialer would hand out next is a new one exactly while it has opened fewer than 2^31. */
  lemma FreshIdsExactly(n: Node)
    requires Inv(n) && n.s.role.Dialer?
    ensures n.opens < 0x8000_0000 <==> !Used(n, n.s.nextSid)
  {
    hide SidOk, WireOk, EncodeAll, HelloOk, FlowOk, LastSyn;
  }

  /** A session that has not been greeted dies with PROTOCOL on any frame but a greeting, so an
      acceptor whose host makes it emit earlier kills its dialer. */
  lemma EarlyFrameKills(s: Session, f: Frame, order: seq<Sid>)
    requires GoodConfig(s.cfg) && !s.dead && !s.helloSeen && !IsHello(f)
    ensures var s1 := Process(s, f, order); s1.dead && Fatal(CODE_PROTOCOL) in s1.events
  {
    hide OnSyn, OnStreamData, OnWindowUpdate, OnPing, OnGoAway, OnCapacity, OnHello;
    var s1 := Process(s, f, order);
    assert s1.events == s.events + [Fatal(CODE_PROTOCOL)];
    assert s1.events[|s.events|] == Fatal(CODE_PROTOCOL);
  }
}
