/** A session together with the history of its use by a host: the calls it accepted, the frames it
    processed, the events it reported. The peer is arbitrary here. */
module Node {
  import opened Wire
  import opened Codec
  import opened Session
  import opened Trace

  /** `taken`: bytes handed to the transport; `popped`: events already drained; `rcvd`: frames
      processed; `wrote`, `consumed`: per stream, bytes accepted by mux_write and consumed while the
      stream was live; `peer`: what the peer's greeting said; `opens`: ids allocated; `openedAt`: per own
      stream, how many frames had been emitted and processed when it was opened; `told`: what the host had the
      peer told, in order; `cuts`: per stream, the code its host reset it with. */
  datatype Node = Node(s: Session, taken: seq<Byte>, popped: seq<Event>, rcvd: seq<Frame>,
                       wrote: map<Sid, seq<Byte>>, consumed: map<Sid, nat>, consumedTotal: nat,
                       peer: Params, opens: nat, openedAt: map<Sid, (nat, nat)>,
                       told: seq<Event>, cuts: map<Sid, U32>)

  function Log(n: Node): seq<Event> { n.popped + n.s.events }
  function Wrote(n: Node, sid: Sid): seq<Byte> { if sid in n.wrote then n.wrote[sid] else [] }
  function Consumed(n: Node, sid: Sid): nat { if sid in n.consumed then n.consumed[sid] else 0 }

  /** Bytes processed but not reported to the host: their stream was unknown or aborted. */
  function Dropped(n: Node): int { TotalData(n.rcvd) - TotalIn(Log(n)) }

  datatype Call =
    | CallOpen(meta: seq<Byte>)
    | CallWrite(sid: Sid, p: seq<Byte>)
    | CallClose(sid: Sid)
    | CallReset(sid: Sid, code: U32)
    | CallConsume(sid: Sid, n: nat)
    | CallCapacity(weight: U32)
    | CallGoAway(reason: U32)
    | CallTimer(now: nat)
    | CallAdvance(n: nat)
    | CallPop

  function Accept(n: Node, sid: Sid, p: seq<Byte>): Node {
    if p == [] then n else n.(wrote := n.wrote[sid := Wrote(n, sid) + p])
  }

  function NoteConsumed(n: Node, sid: Sid, k: nat): Node {
    n.(consumedTotal := n.consumedTotal + k,
       consumed := if sid in n.s.streams then n.consumed[sid := Consumed(n, sid) + k] else n.consumed)
  }

  function DoOpen(n: Node, meta: seq<Byte>): Node {
    var (s1, r) := OpenStream(n.s, meta);
    n.(s := s1, opens := if s1.nextSid != n.s.nextSid then n.opens + 1 else n.opens,
       openedAt := if 0 <= r < U32_LIMIT then n.openedAt[r := (|n.s.wire|, |n.rcvd|)] else n.openedAt,
       told := if 0 <= r < U32_LIMIT then n.told + [StreamOpened(r, meta)] else n.told)
  }

  function DoWrite(n: Node, sid: Sid, p: seq<Byte>): Node {
    var (s1, r) := WriteStream(n.s, sid, p);
    Accept(n, sid, if 0 <= r <= |p| then p[..r] else []).(s := s1)
  }

  function DoClose(n: Node, sid: Sid): Node { n.(s := CloseStream(n.s, sid).0) }
  function DoReset(n: Node, sid: Sid, code: U32): Node {
    n.(s := ResetStream(n.s, sid, code).0,
       cuts := if !n.s.dead && sid in n.s.streams then n.cuts[sid := code] else n.cuts)
  }

  function DoCapacity(n: Node, w: U32): Node {
    var (s1, r) := SendCapacity(n.s, w);
    n.(s := s1, told := if r == OK then n.told + [Capacity(w)] else n.told)
  }

  function DoGoAway(n: Node, reason: U32): Node {
    var (s1, r) := SendGoAway(n.s, reason);
    n.(s := s1, told := if r == OK then n.told + [GoAway(reason, n.s.maxRemote)] else n.told)
  }

  function DoTimer(n: Node, now: nat): Node { n.(s := OnTimer(n.s, now).0) }

  function DoConsume(n: Node, sid: Sid, k: nat): Node {
    var n1 := if n.s.dead then n else NoteConsumed(n, sid, k);
    n1.(s := Consume(n.s, sid, k).0)
  }

  function DoPop(n: Node): Node {
    var (s1, e) := PopEvent(n.s);
    n.(s := s1, popped := if e.Some? then n.popped + [e.value] else n.popped)
  }

  function DoAdvance(n: Node, k: nat): Node {
    n.(s := Advance(n.s, k), taken := n.taken + n.s.out[..Min(k, |n.s.out|)])
  }

  function Do(n: Node, c: Call): Node {
    match c
    case CallOpen(meta) => DoOpen(n, meta)
    case CallWrite(sid, p) => DoWrite(n, sid, p)
    case CallClose(sid) => DoClose(n, sid)
    case CallReset(sid, code) => DoReset(n, sid, code)
    case CallConsume(sid, k) => DoConsume(n, sid, k)
    case CallCapacity(w) => DoCapacity(n, w)
    case CallGoAway(r) => DoGoAway(n, r)
    case CallTimer(now) => DoTimer(n, now)
    case CallAdvance(k) => DoAdvance(n, k)
    case CallPop => DoPop(n)
  }

  const DEFAULT_PARAMS := Params(DEFAULT_MAX_STREAMS, DEFAULT_INIT_WINDOW, DEFAULT_SESSION_WINDOW, NO_INFO)

  function HelloParams(f: Frame): Params { ReadTlvs(DEFAULT_PARAMS, f.payload, 0).0 }

  /** Processing one frame; a frame that kills the session is not counted as processed. */
  function Receive(n: Node, f: Frame, order: seq<Sid>): Node
    requires GoodConfig(n.s.cfg)
  {
    if n.s.dead then n
    else
      var s1 := Process(n.s, f, order);
      n.(s := s1, rcvd := if s1.dead then n.rcvd else n.rcvd + [f],
         peer := if s1.helloSeen && !n.s.helloSeen && !s1.dead then HelloParams(f) else n.peer)
  }

  function Start(s: Session): Node {
    Node(s, [], [], [], map[], map[], 0, DEFAULT_PARAMS, 0, map[], [], map[])
  }

  // ---------------------------------------------------------------- invariants for any peer

  function First(role: Role): nat { if role.Dialer? then 1 else 2 }

  /** Ids that cannot be opened any more: own ids already allocated, peer ids up to the highest seen. */
  predicate Used(n: Node, sid: Sid) {
    if Own(n.s.role, sid) then sid < First(n.s.role) + 2 * n.opens else sid <= n.s.maxRemote
  }

  function BlockedSet(streams: map<Sid, Stream>): set<Sid> {
    set sid | sid in streams && streams[sid].blocked
  }

  /** A stream is over once it was aborted either way or finished both ways. */
  predicate Over(w: Summary, r: Summary) { w.rst || r.rst || (w.fin && r.fin) }

  predicate Watermark(pending: int, window: int) { pending == 0 || 2 * pending < window }

  ghost predicate IdsOk(n: Node) {
    && n.opens <= (if n.s.role.Dialer? then 0x8000_0000 else 0x7FFF_FFFF)
    && n.s.nextSid == (First(n.s.role) + 2 * n.opens) % U32_LIMIT
    && (n.s.maxRemote == 0 || !Own(n.s.role, n.s.maxRemote))
    && LastSyn(n.s.wire) < First(n.s.role) + 2 * n.opens
    && LastSyn(n.rcvd) <= n.s.maxRemote
    && (!n.s.dead ==> LastSyn(n.rcvd) == n.s.maxRemote)
  }

  ghost predicate HelloOk(n: Node) {
    && (!n.s.helloSeen ==> n.s.streams == map[] && n.opens == 0 && n.s.maxRemote == 0 && n.rcvd == []
                           && TotalData(n.s.wire) == 0)
    && (!n.s.helloSeen && !n.s.dead ==>
          && n.s.peerMax == DEFAULT_PARAMS.peerMax && n.s.peerInit == DEFAULT_PARAMS.peerInit
          && n.s.sendWin == DEFAULT_PARAMS.sendWin && n.peer == DEFAULT_PARAMS)
    && (n.s.helloSeen && n.rcvd == [] ==>
          n.s.dead && n.s.streams == map[] && n.opens == 0 && TotalData(n.s.wire) == 0)
    && (n.rcvd != [] ==> n.s.peerMax == n.peer.peerMax && n.s.peerInit == n.peer.peerInit)
  }

  /** Connection-level laws: what the windows are worth in terms of the two frame histories. */
  ghost predicate FlowOk(n: Node) {
    && n.s.sendWin >= 0 && n.s.recvWin >= 0 && n.s.recvPending >= 0
    && n.s.recvWin + TotalIn(Log(n)) == n.s.cfg.sessionWindow + Tr(n.s.wire, SID_CONTROL).credit
    && n.s.recvWin + n.s.recvPending + TotalIn(Log(n)) == n.s.cfg.sessionWindow + n.consumedTotal
    && TotalData(n.s.wire) <= n.peer.sendWin + Tr(n.rcvd, SID_CONTROL).credit
    && (!n.s.dead ==> n.s.sendWin + TotalData(n.s.wire) == n.peer.sendWin + Tr(n.rcvd, SID_CONTROL).credit)
    && TotalIn(Log(n)) <= TotalData(n.rcvd)
  }

  ghost predicate SessOk(n: Node) {
    && GoodConfig(n.s.cfg)
    && IdsOk(n)
    && HelloOk(n)
    && FlowOk(n)
    && n.s.blockedCount == |BlockedSet(n.s.streams)|
  }

  /** What holds of a live stream's record. */
  ghost predicate LiveOk(n: Node, sid: Sid, st: Stream, w: Summary, r: Summary, h: Heard) {
    && sid != SID_CONTROL
    && !w.rst
    && (w.fin <==> st.life.HalfLocal?)
    && (st.life.HalfRemote? ==> r.fin) && (st.life.HalfRemote? <==> h.closed)
    && (if Own(n.s.role, sid) then w.syn else r.syn)
    && st.sendWin >= 0 && st.recvWin >= 0 && st.recvPending >= 0
    && (!n.s.dead ==> st.sendWin + |w.data| <= n.s.peerInit + r.credit)
    && st.recvWin + |h.data| == n.s.cfg.initWindow + w.credit
    && st.recvWin + st.recvPending + |h.data| == n.s.cfg.initWindow + Consumed(n, sid)
    && (!n.s.dead && st.blocked ==> st.sendWin <= 0 || n.s.sendWin <= 0)
  }

  ghost predicate SidOk(n: Node, sid: Sid) {
    var w, r, h := Tr(n.s.wire, sid), Tr(n.rcvd, sid), Hear(Log(n), sid);
    && (sid in n.s.streams ==> Used(n, sid) && LiveOk(n, sid, n.s.streams[sid], w, r, h))
    && |w.data| <= n.s.peerInit + r.credit
    && Wrote(n, sid) == w.data
    && |h.data| <= |r.data|
    && (sid != SID_CONTROL ==> w.credit <= Consumed(n, sid))
    && (!Used(n, sid) ==> w == ZERO && h == Heard([], false) && Consumed(n, sid) == 0)
    && (w.syn ==> Own(n.s.role, sid))
    && (!n.s.dead && Own(n.s.role, sid) && Used(n, sid) && sid != SID_CONTROL ==> w.syn)
    && (sid == SID_CONTROL ==> w.data == [])
    && (!Own(n.s.role, sid) && sid != SID_CONTROL && w != ZERO ==> r.syn)
    && (!n.s.dead && (w.syn || r.syn) && sid !in n.s.streams ==> Over(w, r))
  }

  /** The bytes taken by the transport and those still pending are the encodings of the frames. */
  ghost predicate OutOk(n: Node) { EncodeAll(n.s.wire) == n.taken + n.s.out }

  ghost predicate Inv(n: Node) {
    && SessOk(n)
    && WireOk(n.s.role, n.s.wire)
    && OutOk(n)
    && forall sid: Sid :: SidOk(n, sid)
  }

  /** Pending credit stays under half a window. */
  ghost predicate MarksOk(n: Node) {
    !n.s.dead ==>
      && Watermark(n.s.recvPending, n.s.cfg.sessionWindow)
      && forall sid :: sid in n.s.streams ==> Watermark(n.s.streams[sid].recvPending, n.s.cfg.initWindow)
  }
}
