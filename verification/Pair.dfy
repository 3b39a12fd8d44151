/** A dialer and an acceptor joined by two ordered byte channels, under every interleaving of host
    calls, transport progress and reception, and every fragmentation of the bytes. */
module Pair {
  import opened Commons
  import opened Wire
  import opened Codec
  import opened Session
  import opened Trace
  import opened Node
  import opened NodeSteps
  import opened NodeSend
  import opened NodeConsume
  import opened NodeControl
  import opened NodeRuns
  import opened NodeHonest
  import opened Recv
  import opened Closing
  import opened Notices
  import opened PairLaws

  /** One direction of the tunnel: bytes on their way, and bytes that arrived but that mux_recv has
      not consumed yet. */
  datatype Link = Link(transit: seq<Byte>, tail: seq<Byte>)

  datatype Pair = Pair(a: Node, b: Node, ab: Link, ba: Link)

  function Swap(p: Pair): Pair { Pair(p.b, p.a, p.ba, p.ab) }

  // ---------------------------------------------------------------- steps

  /** What the theorems ask of a host: ids left when a dialer opens, no more consumed than was
      reported, and an acceptor emits nothing before the peer's greeting. */
  ghost predicate CallOk(n: Node, c: Call) {
    && (c.CallOpen? ==> IdsLeft(n))
    && (c.CallConsume? ==>
          && n.consumedTotal + c.n <= TotalIn(Log(n))
          && (c.sid in n.s.streams ==> Consumed(n, c.sid) + c.n <= |Hear(Log(n), c.sid).data|))
    && (n.s.role.Acceptor? && !n.s.helloSeen ==> Do(n, c).s.wire == n.s.wire)
  }

  /** The frames `fs` processed by one mux_recv, with the session it leaves. */
  function Absorb(n: Node, fs: seq<Frame>, s: Session): Node {
    n.(s := s, rcvd := n.rcvd + fs, peer := if fs == [] || n.s.helloSeen then n.peer else HelloParams(fs[0]))
  }

  ghost predicate HostStep(p: Pair, c: Call, p': Pair) {
    && CallOk(p.a, c)
    && p' == p.(a := Do(p.a, c),
                ab := p.ab.(transit := p.ab.transit
                                       + if c.CallAdvance? then p.a.s.out[..Min(c.n, |p.a.s.out|)] else []))
  }

  ghost predicate ArriveStep(p: Pair, k: nat, p': Pair) {
    && k <= |p.ba.transit|
    && p' == p.(ba := Link(p.ba.transit[k..], p.ba.tail + p.ba.transit[..k]))
  }

  ghost predicate RecvStep(p: Pair, fs: seq<Frame>, p': Pair) {
    && RecvRun(p.a.s, p.ba.tail, fs, p'.a.s)
    && EncodeAll(fs) <= p.ba.tail
    && p' == p.(a := Absorb(p.a, fs, p'.a.s), ba := p.ba.(tail := p.ba.tail[|EncodeAll(fs)|..]))
  }

  /** A step of the first endpoint. */
  ghost predicate SideStep(p: Pair, p': Pair) {
    || (exists c :: HostStep(p, c, p'))
    || (exists k: nat :: ArriveStep(p, k, p'))
    || (exists fs :: RecvStep(p, fs, p'))
  }

  ghost predicate PairStep(p: Pair, p': Pair) {
    SideStep(p, p') || SideStep(Swap(p), Swap(p'))
  }

  ghost predicate PairInit(p: Pair, rawA: Config, rawB: Config) {
    && New(rawA, Dialer).Some? && New(rawB, Acceptor).Some?
    && p == Pair(Start(New(rawA, Dialer).value), Start(New(rawB, Acceptor).value), Link([], []), Link([], []))
  }

  ghost predicate PairRun(ps: seq<Pair>, rawA: Config, rawB: Config) {
    && |ps| > 0 && PairInit(ps[0], rawA, rawB)
    && forall i :: 0 <= i < |ps| - 1 ==> PairStep(ps[i], ps[i + 1])
  }

  // ---------------------------------------------------------------- invariant

  ghost predicate NoViolation(n: Node) { forall e :: e in Log(n) ==> !Violation(e) }

  ghost predicate NoRst(w: seq<Frame>) { forall f :: f in w ==> !IsRst(f) }

  /** Without resets nothing is dropped. */
  ghost predicate DropOk(n: Node) {
    !n.s.dead && NoRst(n.s.wire) && NoRst(n.rcvd) ==> Dropped(n) == 0
  }

  function Sids(w: seq<Frame>): set<Sid> { set f | f in w :: f.sid }

  /** Own streams opened on `w` and not over, as far as the frames `r` from the peer tell. */
  function Standing(w: seq<Frame>, r: seq<Frame>): set<Sid> {
    set sid | sid in Sids(w) && Tr(w, sid).syn && !Over(Tr(w, sid), Tr(r, sid))
  }

  /** Every SYN was emitted while fewer streams than the peer's cap were standing. */
  ghost predicate CapOk(n: Node) {
    forall k :: 0 <= k < |n.s.wire| && IsSyn(n.s.wire[k]) ==>
      && n.s.wire[k].sid in n.openedAt
      && n.openedAt[n.s.wire[k].sid].0 == k
      && n.openedAt[n.s.wire[k].sid].1 <= |n.rcvd|
      && |Standing(n.s.wire[..k], n.rcvd[..n.openedAt[n.s.wire[k].sid].1])| < n.s.peerMax
  }

  /** An end that neither opens nor drains has let in every SYN it processed. */
  ghost predicate Welcomed(n: Node) {
    n.opens == 0 && !n.s.localGoaway ==>
      forall f :: f in n.rcvd && IsSyn(f) ==> StreamOpened(f.sid, f.payload) in Log(n)
  }

  ghost predicate Good(n: Node) {
    && MarksOk(n) && Introduced(n) && Exact(n) && HostOk(n) && NoViolation(n) && DropOk(n) && CapOk(n)
    && ClosedOnce(n) && Welcomed(n) && Noted(n)
  }

  /** The bytes the transport took from `x` are those `y` has processed, then those on their way. */
  ghost predicate LinkOk(x: Node, y: Node, l: Link) {
    x.taken == EncodeAll(y.rcvd) + l.tail + l.transit
  }

  ghost predicate PairInv(p: Pair) {
    && Linked(p.a, p.b) && Good(p.a) && Good(p.b)
    && LinkOk(p.a, p.b, p.ab) && LinkOk(p.b, p.a, p.ba)
  }

  lemma SwapInv(p: Pair)
    requires PairInv(p)
    ensures PairInv(Swap(p))
  {
    hide Good, Linked;
    LinkedSym(p.a, p.b);
  }

  // ---------------------------------------------------------------- host calls

  /** A call touches the handshake state in no way and can only report the session's own death. */
  lemma CallBase(n: Node, c: Call)
    ensures var n' := Do(n, c);
            && SameBase(n.s, n'.s) && n'.rcvd == n.rcvd && n'.peer == n.peer
            && (!c.CallConsume? ==> n'.consumed == n.consumed && n'.consumedTotal == n.consumedTotal)
            && (!c.CallOpen? ==> n'.opens == n.opens && n'.openedAt == n.openedAt)
            && (!c.CallAdvance? ==> n'.taken == n.taken)
            && (n.s.dead ==> n'.s.dead)
            && exists es :: Log(n') == Log(n) + es && forall e :: e in es ==> e == Fatal(CODE_INTERNAL)
  {
    hide Do, SameBase, OnlyDies;
    var n' := Do(n, c);
    CallSession(n, c);
    CallHistory(n, c);
    if c.CallPop? || c.CallAdvance? {
      QuietLog(n, c);
    } else {
      LogDies(n, n');
    }
  }

  /** The dead stay dead. */
  lemma StepAlive(n: Node, st: Step)
    requires GoodConfig(n.s.cfg)
    ensures n.s.dead ==> Next(n, st).s.dead
  {
    hide Do, Process, OnlyDies, SameBase;
    match st
    case HostCall(c) => CallBase(n, c);
    case PeerFrame(f, order) => TidyProcess(n.s, f, order);
    case PeerGarbage =>
  }

  lemma CallSession(n: Node, c: Call)
    ensures SameBase(n.s, Do(n, c).s) && (OnlyDies(n.s, Do(n, c).s) || c.CallPop? || c.CallAdvance?)
  {
    hide OpenStream, WriteStream, CloseStream, ResetStream, Consume, SendCapacity, SendGoAway, OnTimer, SameBase,
      OnlyDies, Accept, NoteConsumed;
    match c {
      case CallOpen(meta) => OpenBase(n.s, meta);
      case CallWrite(sid, p) => WriteOnlyDies(n.s, sid, p); WriteBase(n.s, sid, p);
      case CallClose(sid) => CloseStreams(n.s, sid);
      case CallReset(sid, code) => ResetBase(n.s, sid, code);
      case CallConsume(sid, k) => ConsumeStreams(n.s, sid, k);
      case CallCapacity(w) => CapacityKeeps(n.s, w);
      case CallGoAway(r) => GoAwayKeeps(n.s, r);
      case CallTimer(now) => TimerKeeps(n.s, now);
      case CallAdvance(k) => SameRefl(n.s, Do(n, c).s);
      case CallPop => SameRefl(n.s, Do(n, c).s);
    }
  }

  lemma CallHistory(n: Node, c: Call)
    ensures var n' := Do(n, c);
            && n'.rcvd == n.rcvd && n'.peer == n.peer && (!c.CallPop? ==> n'.popped == n.popped)
            && (!c.CallConsume? ==> n'.consumed == n.consumed && n'.consumedTotal == n.consumedTotal)
            && (!c.CallOpen? ==> n'.opens == n.opens && n'.openedAt == n.openedAt)
            && (!c.CallAdvance? ==> n'.taken == n.taken)
  {
    hide OpenStream, WriteStream, CloseStream, ResetStream, Consume, SendCapacity, SendGoAway, OnTimer, PopEvent,
        Advance;
  }

  lemma QuietLog(n: Node, c: Call)
    requires c.CallPop? || c.CallAdvance?
    ensures var n' := Do(n, c);
            && (n.s.dead ==> n'.s.dead)
            && exists es :: Log(n') == Log(n) + es && forall e :: e in es ==> e == Fatal(CODE_INTERNAL)
  {
    hide DoOpen, DoWrite, DoClose, DoReset, DoConsume, DoCapacity, DoGoAway, DoTimer;
    assert Log(Do(n, c)) == Log(n) + [];
  }

  lemma LogDies(n: Node, n': Node)
    requires n'.popped == n.popped && OnlyDies(n.s, n'.s)
    ensures n.s.dead ==> n'.s.dead
    ensures exists es :: Log(n') == Log(n) + es && forall e :: e in es ==> e == Fatal(CODE_INTERNAL)
  {
    var es := if n'.s.events == n.s.events then [] else [Fatal(CODE_INTERNAL)];
    assert Log(n') == Log(n) + es;
  }

  lemma SameRefl(s: Session, s': Session)
    requires s' == s.(out := s'.out, events := s'.events)
    ensures SameBase(s, s')
  {
  }

  lemma OpenBase(s: Session, meta: seq<Byte>)
    ensures var s1 := OpenStream(s, meta).0; SameBase(s, s1) && OnlyDies(s, s1)
  {
    hide Encode, GrowTo;
  }

  lemma WriteBase(s: Session, sid: Sid, p: seq<Byte>)
    ensures SameBase(s, WriteStream(s, sid, p).0)
  {
    WriteStreams(s, sid, p);
  }

  lemma ResetBase(s: Session, sid: Sid, code: U32)
    ensures var s1 := ResetStream(s, sid, code).0; SameBase(s, s1) && OnlyDies(s, s1)
  {
    hide Emit;
    EmitKeeps(s, RstFrame(sid, code));
  }

  lemma CallGrows(n: Node, c: Call)
    requires Inv(n) && (c.CallOpen? ==> IdsLeft(n))
    ensures Grows(n.s, Do(n, c).s) || c.CallPop?
    ensures c.CallPop? ==> Do(n, c).s.wire == n.s.wire
  {
    hide Inv, OpenStream, WriteStream, CloseStream, ResetStream, Consume, SendCapacity, SendGoAway, OnTimer;
    if c.CallConsume? {
      ConsumeWakes(n.s, c.sid, c.n);
    } else if !c.CallPop? && !c.CallAdvance? {
      TidyCall(n, c);
    }
  }

  lemma CallIntroduced(n: Node, c: Call)
    requires Inv(n) && Introduced(n) && CallOk(n, c)
    ensures Introduced(Do(n, c))
  {
    hide Inv, Do, HelloPayload, ReadTlvs;
    CallBase(n, c);
    CallGrows(n, c);
    if n.s.dead {
      DeadCall(n, c);
    }
  }

  lemma CallHostOk(n: Node, c: Call)
    requires Inv(n) && HostOk(n) && CallOk(n, c)
    ensures HostOk(Do(n, c))
  {
    hide Inv, TotalIn, Hear, OpenStream, WriteStream, CloseStream, ResetStream, Consume, SendCapacity, SendGoAway,
        OnTimer;
    var n' := Do(n, c);
    CallBase(n, c);
    var es :| Log(n') == Log(n) + es && forall e :: e in es ==> e == Fatal(CODE_INTERNAL);
    HearMute(Log(n), es, SID_CONTROL);
    forall sid: Sid ensures Consumed(n', sid) <= |Hear(Log(n'), sid).data| {
      HearMute(Log(n), es, sid);
    }
  }

  lemma CallNoViolation(n: Node, c: Call)
    requires NoViolation(n)
    ensures NoViolation(Do(n, c))
  {
    hide Do;
    CallBase(n, c);
  }

  lemma CallClosedOnce(n: Node, c: Call)
    requires ClosedOnce(n)
    ensures ClosedOnce(Do(n, c))
  {
    hide Do, ClosedOnce;
    CallBase(n, c);
    var es :| Log(Do(n, c)) == Log(n) + es && forall e :: e in es ==> e == Fatal(CODE_INTERNAL);
    MuteClosings(n, Do(n, c), es);
  }

  lemma CallWelcomed(n: Node, c: Call)
    requires Welcomed(n)
    ensures Welcomed(Do(n, c))
  {
    hide Do;
    CallBase(n, c);
    OpensGrow(n, c);
    var es :| Log(Do(n, c)) == Log(n) + es && forall e :: e in es ==> e == Fatal(CODE_INTERNAL);
    assert forall e :: e in Log(n) ==> e in Log(n) + es;
  }

  lemma CallNoted(n: Node, c: Call)
    requires Inv(n) && GoodConfig(n.s.cfg) && Noted(n) && (c.CallOpen? ==> IdsLeft(n))
    ensures Noted(Do(n, c))
  {
    hide Inv, Do, ToldOk, CutsOk, PingsOk, ReportsOk;
    StepTold(n, HostCall(c));
    StepCuts(n, HostCall(c));
    StepPings(n, HostCall(c));
    CallBase(n, c);
    var es :| Log(Do(n, c)) == Log(n) + es && forall e :: e in es ==> e == Fatal(CODE_INTERNAL);
    MuteReports(n, Do(n, c), es);
  }

  lemma OpensGrow(n: Node, c: Call)
    ensures n.opens <= Do(n, c).opens
  {
    hide OpenStream, WriteStream, CloseStream, ResetStream, Consume, SendCapacity, SendGoAway, OnTimer, PopEvent,
      Advance;
  }

  lemma CallDropOk(n: Node, c: Call)
    requires Inv(n) && DropOk(n) && (c.CallOpen? ==> IdsLeft(n))
    ensures DropOk(Do(n, c))
  {
    hide Inv, Do, TotalIn, TotalData;
    var n' := Do(n, c);
    CallBase(n, c);
    CallGrows(n, c);
    var es :| Log(n') == Log(n) + es && forall e :: e in es ==> e == Fatal(CODE_INTERNAL);
    HearMute(Log(n), es, SID_CONTROL);
    if NoRst(n'.s.wire) {
      assert NoRst(n.s.wire);
    }
  }

  /** Only mux_open emits a SYN. */
  lemma NoNewSyn(n: Node, n': Node, k: nat)
    requires Inv(n) && Inv(n') && !n.s.dead && n'.opens == n.opens && n'.s.role == n.s.role
    requires n.s.wire <= n'.s.wire && |n.s.wire| <= k < |n'.s.wire|
    ensures !IsSyn(n'.s.wire[k])
  {
    hide HelloOk, FlowOk, EncodeAll, Tr, Hear, TotalData, TotalIn, LastSyn;
    var w, f := n'.s.wire, n'.s.wire[k];
    if IsSyn(f) {
      assert MayFollow(n'.s.role, w[..k], f);
      assert SidOk(n, f.sid);
      TrPrefix(n.s.wire, w[..k], f.sid);
      SynIsAny(w[..k], f.sid);
      SynBound(n'.s.role, w, k);
    }
  }

  lemma SynBound(role: Role, w: seq<Frame>, k: nat)
    requires WireOk(role, w) && k < |w| && IsSyn(w[k])
    ensures w[k].sid <= LastSyn(w)
  {
    hide WireOk, LastSyn;
    LastSynGrows(role, w[..k + 1], w);
    assert w[..k + 1] == w[..k] + [w[k]];
    LastSynAppend(w[..k], w[k]);
  }

  /** Frames appended on either side do not disturb what was recorded when a stream was opened. */
  lemma CapKept(n: Node, n': Node)
    requires CapOk(n) && n.s.wire <= n'.s.wire && n.rcvd <= n'.rcvd
    requires n'.openedAt == n.openedAt && n'.s.peerMax == n.s.peerMax
    requires forall k :: |n.s.wire| <= k < |n'.s.wire| ==> !IsSyn(n'.s.wire[k])
    ensures CapOk(n')
  {
    hide Standing;
    forall k | 0 <= k < |n'.s.wire| && IsSyn(n'.s.wire[k])
      ensures n'.s.wire[k].sid in n'.openedAt
      ensures n'.openedAt[n'.s.wire[k].sid].0 == k && n'.openedAt[n'.s.wire[k].sid].1 <= |n'.rcvd|
      ensures |Standing(n'.s.wire[..k], n'.rcvd[..n'.openedAt[n'.s.wire[k].sid].1])| < n'.s.peerMax
    {
      assert n'.s.wire[k] == n.s.wire[k];
      assert n'.s.wire[..k] == n.s.wire[..k];
      var r := n.openedAt[n.s.wire[k].sid].1;
      assert n'.rcvd[..r] == n.rcvd[..r];
    }
  }

  /** Standing streams are live. */
  lemma StandingLive(n: Node)
    requires Inv(n) && !n.s.dead
    ensures Standing(n.s.wire, n.rcvd) <= n.s.streams.Keys && |Standing(n.s.wire, n.rcvd)| <= |n.s.streams|
  {
    hide SessOk, WireOk, EncodeAll, Tr, Hear;
    forall sid | sid in Standing(n.s.wire, n.rcvd) ensures sid in n.s.streams {
      assert SidOk(n, sid);
    }
    SubsetSize(Standing(n.s.wire, n.rcvd), n.s.streams.Keys);
    assert |n.s.streams.Keys| == |n.s.streams|;
  }

  lemma OpenCapOk(n: Node, meta: seq<Byte>)
    requires Inv(n) && CapOk(n) && IdsLeft(n)
    ensures CapOk(DoOpen(n, meta))
  {
    hide Inv, Standing, Encode, GrowTo;
    var n' := DoOpen(n, meta);
    var r := OpenStream(n.s, meta).1;
    if r < 0 {
      CapKept(n, n');
    } else {
      StandingLive(n);
      NextSidUnused(n);
      OpenedCapOk(n, n', r, meta);
    }
  }

  lemma NextSidUnused(n: Node)
    requires Inv(n) && IdsLeft(n) && n.s.nextSid != SID_CONTROL
    ensures !Used(n, n.s.nextSid)
  {
    hide SidOk, WireOk, EncodeAll, Used;
    NextSid(n);
  }

  lemma OpenedCapOk(n: Node, n': Node, sid: Sid, meta: seq<Byte>)
    requires Inv(n) && CapOk(n) && |meta| <= MAX_META && Opened(n, n', sid, meta) && !n.s.dead
    requires n'.openedAt == n.openedAt[sid := (|n.s.wire|, |n.rcvd|)]
    requires |Standing(n.s.wire, n.rcvd)| < n.s.peerMax && !Used(n, sid)
    ensures CapOk(n')
  {
    hide Standing, SessOk, EncodeAll, WireOk, Tr, Hear;
    forall k | 0 <= k < |n'.s.wire| && IsSyn(n'.s.wire[k])
      ensures n'.s.wire[k].sid in n'.openedAt
      ensures n'.openedAt[n'.s.wire[k].sid].0 == k && n'.openedAt[n'.s.wire[k].sid].1 <= |n'.rcvd|
      ensures |Standing(n'.s.wire[..k], n'.rcvd[..n'.openedAt[n'.s.wire[k].sid].1])| < n'.s.peerMax
    {
      if k == |n.s.wire| {
        assert n'.s.wire[..k] == n.s.wire;
        assert n'.rcvd[..|n.rcvd|] == n.rcvd;
      } else {
        assert n'.s.wire[k] == n.s.wire[k] && n'.s.wire[..k] == n.s.wire[..k];
        assert SidOk(n, sid);
        NotThere(n.s.wire, k, sid);
      }
    }
  }

  /** A stream id without frames is on no frame. */
  lemma {:induction false} NotThere(w: seq<Frame>, k: nat, sid: Sid)
    requires Tr(w, sid) == ZERO && k < |w| && IsData(w[k])
    ensures w[k].sid != sid
    decreases |w|
  {
    TrPrefix(w[..k + 1], w, sid);
    assert w[..k + 1] == w[..k] + [w[k]];
    TrAppend(w[..k], w[k], sid);
  }

  lemma CallCapOk(n: Node, c: Call)
    requires Inv(n) && CapOk(n) && (c.CallOpen? ==> IdsLeft(n))
    ensures CapOk(Do(n, c))
  {
    hide Inv, Do, CapOk, Standing;
    var n' := Do(n, c);
    if c.CallOpen? {
      OpenCapOk(n, c.meta);
      DoIsOpen(n, c);
    } else {
      CallBase(n, c);
      CallGrows(n, c);
      CallInv(n, c);
      if n.s.dead {
        DeadCall(n, c);
      }
      forall k | |n.s.wire| <= k < |n'.s.wire| ensures !IsSyn(n'.s.wire[k]) {
        NoNewSyn(n, n', k);
      }
      CapKept(n, n');
    }
  }

  lemma DoIsOpen(n: Node, c: Call)
    requires c.CallOpen?
    ensures Do(n, c) == DoOpen(n, c.meta)
  {
    hide DoOpen, DoWrite, DoClose, DoReset, DoConsume, DoCapacity, DoGoAway, DoTimer, DoAdvance, DoPop;
  }

  /** A dead session emits nothing any more. */
  lemma DeadCall(n: Node, c: Call)
    requires n.s.dead
    ensures Do(n, c).s.wire == n.s.wire
  {
    hide SendAll, Emit;
  }

  lemma CallGood(n: Node, c: Call)
    requires Inv(n) && Good(n) && Disciplined(n) && CallOk(n, c)
    ensures Good(Do(n, c))
  {
    hide Inv, Do, MarksOk, Introduced, Exact, HostOk, NoViolation, DropOk, CapOk, ClosedOnce, Welcomed, Noted,
        Disciplined;
    StepMarks(n, HostCall(c));
    CallIntroduced(n, c);
    CallExact(n, c);
    CallHostOk(n, c);
    CallNoViolation(n, c);
    CallClosedOnce(n, c);
    CallWelcomed(n, c);
    InvConfig(n);
    CallNoted(n, c);
    CallDropOk(n, c);
    CallCapOk(n, c);
  }

  lemma CallLinked(x: Node, y: Node, c: Call)
    requires Linked(x, y) && (c.CallOpen? ==> IdsLeft(x))
    ensures Linked(Do(x, c), y)
  {
    hide Inv, Do;
    CallInv(x, c);
    CallBase(x, c);
    CallGrows(x, c);
  }

  lemma HostStepInv(p: Pair, c: Call, p': Pair)
    requires PairInv(p) && HostStep(p, c, p')
    ensures PairInv(p')
  {
    hide Inv, Good, Do, EncodeAll, Disciplined;
    CallLinked(p.a, p.b, c);
    LinkedSym(p.a, p.b);
    LinkedDisciplined(p.b, p.a);
    CallGood(p.a, c);
    CallBase(p.a, c);
    if c.CallAdvance? {
      AdvanceTaken(p.a, c.n);
    }
    TakenAppend(p, c, p');
  }

  lemma AdvanceTaken(n: Node, k: nat)
    ensures Do(n, CallAdvance(k)).taken == n.taken + n.s.out[..Min(k, |n.s.out|)]
  {
    hide DoOpen, DoWrite, DoClose, DoReset, DoConsume, DoCapacity, DoGoAway, DoTimer, DoPop;
  }

  lemma TakenAppend(p: Pair, c: Call, p': Pair)
    requires LinkOk(p.a, p.b, p.ab) && HostStep(p, c, p')
    requires p'.a.taken == p.a.taken + if c.CallAdvance? then p.a.s.out[..Min(c.n, |p.a.s.out|)] else []
    ensures LinkOk(p'.a, p'.b, p'.ab)
  {
    hide Do, EncodeAll, CallOk;
  }

  lemma ArriveStepInv(p: Pair, k: nat, p': Pair)
    requires PairInv(p) && ArriveStep(p, k, p')
    ensures PairInv(p')
  {
    hide Good, Linked, EncodeAll;
    assert p.ba.transit == p.ba.transit[..k] + p.ba.transit[k..];
  }
}
