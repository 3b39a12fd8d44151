/** The session state machine of libmux/src/session.c as functions on values: what every API
    call and every received frame does to a session. The class in MuxSession.dfy implements it. */
module Session {
  import opened Wire
  import opened Codec
  import opened Commons

  type Sid = U32

  datatype Role = Dialer | Acceptor
  datatype Life = Open | HalfLocal | HalfRemote

  /** One live stream. `blocked` is the library's send_blocked flag. */
  datatype Stream = Stream(life: Life, blocked: bool, sendWin: int, recvWin: int, recvPending: int)

  datatype HelloInfo = HelloInfo(weight: U32, maxStreams: U32, initWindow: U32,
                                 peerId: seq<Byte>, auth: seq<Byte>, nonce: seq<Byte>)

  datatype Event =
    | StreamOpened(sid: Sid, meta: seq<Byte>)
    | StreamData(sid: Sid, data: seq<Byte>)
    | StreamClosed(sid: Sid)
    | StreamReset(sid: Sid, code: U32)
    | Writable(sid: Sid)
    | PeerHello(info: HelloInfo)
    | Capacity(weight: U32)
    | GoAway(reason: U32, lastSid: U32)
    | Fatal(code: U32)

  /** Configuration; a zero field takes its default when a session is created. */
  datatype Config = Config(initWindow: U32, sessionWindow: U32, maxStreams: U32, heartbeatMs: U32,
                           keepaliveTimeoutMs: U32, weight: U32, maxOutBuffer: U32,
                           peerId: seq<Byte>, auth: seq<Byte>, nonce: seq<Byte>)

  datatype Timer = Timer(started: bool, outstanding: bool, dueMs: nat, sentMs: nat, nonce: nat)

  /** A session. `out` are the bytes not yet handed to the transport, `cap` the size of the output
      buffer, `wire` every frame emitted so far (the value the output bytes come from). */
  datatype Session = Session(
    role: Role, cfg: Config, dead: bool,
    peerInit: U32, peerMax: U32,
    sendWin: int, recvWin: int, recvPending: int, blockedCount: int,
    helloSeen: bool, helloSent: bool, localGoaway: bool,
    nextSid: U32, maxRemote: U32,
    streams: map<Sid, Stream>,
    timer: Timer,
    cap: nat, out: seq<Byte>, wire: seq<Frame>,
    events: seq<Event>)

  // ---------------------------------------------------------------- output and events

  function SynFrame(sid: Sid, meta: seq<Byte>): Frame
    requires |meta| <= MAX_META
  {
    Frame(T_DATA, F_SYN, sid, meta)
  }

  function DataFrame(sid: Sid, p: seq<Byte>): Frame
    requires |p| <= MAX_DATA_FRAME
  {
    Frame(T_DATA, 0, sid, p)
  }

  function FinFrame(sid: Sid): Frame { Frame(T_DATA, F_FIN, sid, []) }
  function RstFrame(sid: Sid, code: U32): Frame { Frame(T_DATA, F_RST, sid, Put32(code)) }
  function CreditFrame(sid: Sid, credit: U32): Frame { Frame(T_WINDOW_UPDATE, 0, sid, Put32(credit)) }

  function Max(a: nat, b: nat): nat { if a < b then b else a }
  function Min(a: int, b: int): int { if a < b then a else b }

  /** Doubling until the need is met, from 4096 for an empty buffer. */
  function GrowTo(cap: nat, need: nat): (c: nat)
    ensures need <= c && cap <= c
    decreases need - cap
  {
    if cap == 0 then GrowTo(4096, need)
    else if cap < need then GrowTo(2 * cap, need)
    else cap
  }

  function RaiseFatal(s: Session, code: U32): Session {
    if s.dead then s else s.(dead := true, events := s.events + [Fatal(code)])
  }

  /** A frame fits when it does not push the pending bytes past both the present buffer and the ceiling. */
  predicate HasRoom(s: Session, f: Frame) {
    |s.out| + HEADER_SIZE + |f.payload| <= Max(s.cap, s.cfg.maxOutBuffer)
  }

  function Emitted(s: Session, f: Frame): Session {
    s.(out := s.out + Encode(f), wire := s.wire + [f], cap := GrowTo(s.cap, |s.out| + HEADER_SIZE + |f.payload|))
  }

  function Emit(s: Session, f: Frame): (Session, bool) {
    if HasRoom(s, f) then (Emitted(s, f), true) else (RaiseFatal(s, CODE_INTERNAL), false)
  }

  function Queue(s: Session, e: Event): Session {
    s.(events := s.events + [e])
  }

  // ---------------------------------------------------------------- streams

  function SetBlocked(s: Session, sid: Sid, b: bool): Session
    requires sid in s.streams
  {
    var st := s.streams[sid];
    if st.blocked == b then s
    else s.(streams := s.streams[sid := st.(blocked := b)],
            blockedCount := s.blockedCount + if b then 1 else -1)
  }

  function Remove(s: Session, sid: Sid): Session
    requires sid in s.streams
  {
    s.(streams := s.streams - {sid},
       blockedCount := if s.streams[sid].blocked then s.blockedCount - 1 else s.blockedCount)
  }

  function Fresh(s: Session): Stream {
    Stream(Open, false, s.peerInit, s.cfg.initWindow, 0)
  }

  predicate OddSid(sid: Sid) { sid % 2 == 1 }

  /** The dialer allocates odd ids, the acceptor even ones. */
  predicate Own(role: Role, sid: Sid) { role.Dialer? <==> OddSid(sid) }

  // ---------------------------------------------------------------- greeting

  function HelloTlvs(c: Config): seq<Tlv>
    requires BlobsFit(c)
  {
    [Tlv(TLV_WEIGHT, Put32(c.weight)), Tlv(TLV_MAX_STREAMS, Put32(c.maxStreams)),
     Tlv(TLV_INIT_WINDOW, Put32(c.initWindow)), Tlv(TLV_SESSION_WINDOW, Put32(c.sessionWindow)),
     Tlv(TLV_HEARTBEAT_MS, Put32(c.heartbeatMs))]
    + (if |c.peerId| > 0 then [Tlv(TLV_PEER_ID, c.peerId)] else [])
    + (if |c.auth| > 0 then [Tlv(TLV_AUTH, c.auth)] else [])
    + (if |c.nonce| > 0 then [Tlv(TLV_NONCE, c.nonce)] else [])
  }

  predicate BlobsFit(c: Config) {
    |c.peerId| <= HELLO_BLOB_MAX && |c.auth| <= HELLO_BLOB_MAX && |c.nonce| <= HELLO_BLOB_MAX
  }

  function EncodeTlvs(vs: seq<Tlv>): seq<Byte>
  {
    if vs == [] then [] else EncodeTlv(vs[0]) + EncodeTlvs(vs[1..])
  }

  function HelloPayload(c: Config): (p: seq<Byte>)
    requires BlobsFit(c)
  {
    EncodeTlvs(HelloTlvs(c))
  }

  /** What a greeting tells the receiver: the peer's cap and windows, and the event's fields. */
  datatype Params = Params(peerMax: U32, peerInit: U32, sendWin: int, info: HelloInfo)

  function TakeTlv(p: Params, v: Tlv): Params {
    if v.t == TLV_WEIGHT then
      if |v.val| == 4 then p.(info := p.info.(weight := Get32(v.val, 0))) else p
    else if v.t == TLV_MAX_STREAMS then
      if |v.val| == 4 then p.(peerMax := Get32(v.val, 0), info := p.info.(maxStreams := Get32(v.val, 0))) else p
    else if v.t == TLV_INIT_WINDOW then
      if |v.val| == 4 then p.(peerInit := Get32(v.val, 0), info := p.info.(initWindow := Get32(v.val, 0))) else p
    else if v.t == TLV_SESSION_WINDOW then
      if |v.val| == 4 then p.(sendWin := Get32(v.val, 0)) else p
    else if v.t == TLV_PEER_ID then p.(info := p.info.(peerId := v.val))
    else if v.t == TLV_AUTH then p.(info := p.info.(auth := v.val))
    else if v.t == TLV_NONCE then p.(info := p.info.(nonce := v.val))
    else p
  }

  /** Fold of a greeting's TLVs; the flag is false when the block is malformed. */
  function ReadTlvs(p: Params, buf: seq<Byte>, cursor: nat): (Params, bool)
    requires cursor <= |buf|
    decreases |buf| - cursor
  {
    match NextTlv(buf, cursor)
    case TlvEnd => (p, true)
    case TlvBad => (p, false)
    case TlvNext(v, next) => ReadTlvs(TakeTlv(p, v), buf, next)
  }

  const NO_INFO := HelloInfo(0, 0, 0, [], [], [])

  function HelloFrame(s: Session, ack: bool): Frame
    requires BlobsFit(s.cfg)
  {
    HelloPayloadBound(s.cfg);
    Frame(if ack then T_HELLO_ACK else T_HELLO, 0, SID_CONTROL, HelloPayload(s.cfg))
  }

  function SendHello(s: Session, ack: bool): Session
    requires BlobsFit(s.cfg)
  {
    var (s1, ok) := Emit(s, HelloFrame(s, ack));
    if ok then s1.(helloSent := true) else s1
  }

  /** A HELLO is at most 5 * 8 + 3 * 260 = 820 bytes, so the 1024-byte crafting buffer never overflows. */
  lemma HelloPayloadBound(c: Config)
    requires BlobsFit(c)
    ensures 0 < |HelloPayload(c)| <= 820
  {
    var vs := HelloTlvs(c);
    EncodeTlvsBound(vs, 5);
  }

  lemma {:induction false} EncodeTlvsBound(vs: seq<Tlv>, words: nat)
    requires forall i :: 0 <= i < |vs| ==> |vs[i].val| <= if i < words then 4 else HELLO_BLOB_MAX
    requires words <= |vs|
    ensures 4 * |vs| <= |EncodeTlvs(vs)| <= 8 * words + 260 * (|vs| - words)
  {
    if vs != [] {
      EncodeTlvsBound(vs[1..], if words > 0 then words - 1 else 0);
    }
  }

  // ---------------------------------------------------------------- creation

  function Default(v: U32, d: U32): U32 { if v != 0 then v else d }

  function Resolve(c: Config): Config {
    c.(initWindow := Default(c.initWindow, DEFAULT_INIT_WINDOW),
       sessionWindow := Default(c.sessionWindow, DEFAULT_SESSION_WINDOW),
       maxStreams := Default(c.maxStreams, DEFAULT_MAX_STREAMS),
       maxOutBuffer := Default(c.maxOutBuffer, DEFAULT_MAX_OUT_BUFFER),
       keepaliveTimeoutMs := Default(c.keepaliveTimeoutMs, 3 * (c.heartbeatMs as int) % U32_LIMIT))
  }

  predicate GoodConfig(c: Config) {
    && c.initWindow > 0 && c.sessionWindow > 0 && c.maxStreams > 0 && c.maxOutBuffer > 0
    && BlobsFit(c)
  }

  function Blank(c: Config, role: Role): Session {
    Session(role, c, false, DEFAULT_INIT_WINDOW, DEFAULT_MAX_STREAMS,
            DEFAULT_SESSION_WINDOW, c.sessionWindow, 0, 0,
            false, false, false, if role.Dialer? then 1 else 2, 0,
            map[], Timer(false, false, 0, 0, 0), 0, [], [], [])
  }

  /** mux_session_new: null for an oversized blob or when the dialer's greeting does not fit. */
  function New(raw: Config, role: Role): Option<Session> {
    if !BlobsFit(raw) then None
    else
      var s := Blank(Resolve(raw), role);
      if role.Acceptor? then Some(s)
      else
        var s1 := SendHello(s, false);
        if s1.dead then None else Some(s1)
  }

  // ---------------------------------------------------------------- crediting

  function CreditChunk(pending: int): U32
    requires pending > 0
  {
    Min(pending, U32_MAX)
  }

  /** Emit the pending connection credit; stops with the rest still pending when the output is full. */
  function EmitSessionCredit(s: Session): Session
    decreases s.recvPending
  {
    if s.recvPending <= 0 then s
    else
      var chunk := CreditChunk(s.recvPending);
      var (s1, ok) := Emit(s, CreditFrame(SID_CONTROL, chunk));
      if !ok then s1
      else EmitSessionCredit(s1.(recvWin := s1.recvWin + chunk, recvPending := s1.recvPending - chunk))
  }

  function EmitStreamCredit(s: Session, sid: Sid): Session
    requires sid in s.streams
    decreases s.streams[sid].recvPending
  {
    var st := s.streams[sid];
    if st.recvPending <= 0 then s
    else
      var chunk := CreditChunk(st.recvPending);
      var (s1, ok) := Emit(s, CreditFrame(sid, chunk));
      if !ok then s1
      else EmitStreamCredit(s1.(streams := s1.streams[sid := st.(recvWin := st.recvWin + chunk,
                                                                  recvPending := st.recvPending - chunk)]), sid)
  }

  /** Credit is batched: it goes out once half a window is pending. */
  function CreditSession(s: Session): Session {
    if s.recvPending <= 0 || 2 * s.recvPending < s.cfg.sessionWindow then s else EmitSessionCredit(s)
  }

  function CreditStream(s: Session, sid: Sid): Session
    requires sid in s.streams
  {
    var st := s.streams[sid];
    if st.recvPending <= 0 || 2 * st.recvPending < s.cfg.initWindow then s else EmitStreamCredit(s, sid)
  }

  // ---------------------------------------------------------------- received frames

  /** The stream aborts locally: an RST goes out, the host is told, the record goes. */
  function AbortStream(s: Session, sid: Sid, code: U32): Session
    requires sid in s.streams
  {
    Remove(Queue(Emit(s, RstFrame(sid, code)).0, StreamReset(sid, CODE_NO_ERROR)), sid)
  }

  predicate SynIllegal(s: Session, f: Frame) {
    || !s.helloSeen
    || Own(s.role, f.sid)
    || f.sid == SID_CONTROL
    || f.sid in s.streams
    || f.sid <= s.maxRemote
    || |f.payload| > MAX_META
  }

  predicate Refuses(s: Session) { |s.streams| >= s.cfg.maxStreams || s.localGoaway }

  function Admit(s: Session, f: Frame): Session {
    Queue(s.(streams := s.streams[f.sid := Fresh(s)], maxRemote := f.sid), StreamOpened(f.sid, f.payload))
  }

  function OnSyn(s: Session, f: Frame): Session {
    if SynIllegal(s, f) then RaiseFatal(s, CODE_PROTOCOL)
    else if Refuses(s) then
      Emit(s, RstFrame(f.sid, CODE_REFUSED)).0.(maxRemote := f.sid)
    else
      var s1 := Admit(s, f);
      if HasRst(f.flags) then Remove(Queue(s1, StreamReset(f.sid, CODE_NO_ERROR)), f.sid)
      else if HasFin(f.flags) then
        Queue(s1.(streams := s1.streams[f.sid := s1.streams[f.sid].(life := HalfRemote)]), StreamClosed(f.sid))
      else s1
  }

  function TakeData(s: Session, f: Frame): Session
    requires f.sid in s.streams
  {
    var st := s.streams[f.sid];
    Queue(s.(streams := s.streams[f.sid := st.(recvWin := st.recvWin - |f.payload|)],
             recvWin := s.recvWin - |f.payload|),
          StreamData(f.sid, f.payload))
  }

  function TakeFin(s: Session, sid: Sid): Session
    requires sid in s.streams
  {
    var s1 := Queue(s, StreamClosed(sid));
    var st := s.streams[sid];
    if st.life.HalfLocal? then Remove(s1, sid)
    else s1.(streams := s1.streams[sid := st.(life := HalfRemote)])
  }

  function OnStreamData(s: Session, f: Frame): Session {
    if f.sid == SID_CONTROL then RaiseFatal(s, CODE_PROTOCOL)
    else if f.sid !in s.streams then s
    else if HasRst(f.flags) then
      Remove(Queue(s, StreamReset(f.sid, if |f.payload| >= 4 then Get32(f.payload, 0) else CODE_NO_ERROR)), f.sid)
    else if |f.payload| > 0 && s.streams[f.sid].life.HalfRemote? then AbortStream(s, f.sid, CODE_PROTOCOL)
    else if |f.payload| > 0 && |f.payload| > s.recvWin then RaiseFatal(s, CODE_FLOW_CONTROL)
    else if |f.payload| > 0 && |f.payload| > s.streams[f.sid].recvWin then AbortStream(s, f.sid, CODE_FLOW_CONTROL)
    else
      var s1 := if |f.payload| > 0 then TakeData(s, f) else s;
      if HasFin(f.flags) then TakeFin(s1, f.sid) else s1
  }

  const WINDOW_LIMIT := 0x1_0000_0000_0000

  function Wake(s: Session, sid: Sid): Session {
    if sid in s.streams && s.streams[sid].blocked && s.streams[sid].sendWin > 0
    then Queue(SetBlocked(s, sid, false), Writable(sid))
    else s
  }

  /** Visit the streams in table order and wake the blocked ones that have room. */
  function Sweep(s: Session, order: seq<Sid>): Session
    decreases |order|
  {
    if order == [] then s else Sweep(Wake(s, order[0]), order[1..])
  }

  function OnSessionCredit(s: Session, credit: U32, order: seq<Sid>): Session {
    var s1 := s.(sendWin := s.sendWin + credit);
    if s1.sendWin > WINDOW_LIMIT then RaiseFatal(s1, CODE_FLOW_CONTROL)
    else if s.sendWin <= 0 && s1.sendWin > 0 && s1.blockedCount > 0 then Sweep(s1, order)
    else s1
  }

  function OnStreamCredit(s: Session, sid: Sid, credit: U32): Session {
    if sid !in s.streams then s
    else
      var st := s.streams[sid];
      var s1 := s.(streams := s.streams[sid := st.(sendWin := st.sendWin + credit)]);
      if st.sendWin + credit > WINDOW_LIMIT then RaiseFatal(s1, CODE_FLOW_CONTROL)
      else if s1.sendWin > 0 then Wake(s1, sid)
      else s1
  }

  function OnWindowUpdate(s: Session, f: Frame, order: seq<Sid>): Session {
    if |f.payload| != 4 then RaiseFatal(s, CODE_PROTOCOL)
    else if f.sid == SID_CONTROL then OnSessionCredit(s, Get32(f.payload, 0), order)
    else OnStreamCredit(s, f.sid, Get32(f.payload, 0))
  }

  function OnPing(s: Session, f: Frame): Session {
    if f.sid != SID_CONTROL || |f.payload| != 8 then RaiseFatal(s, CODE_PROTOCOL)
    else if HasAck(f.flags) then s.(timer := s.timer.(outstanding := false))
    else Emit(s, Frame(T_PING, F_ACK, SID_CONTROL, f.payload)).0
  }

  function OnGoAway(s: Session, f: Frame): Session {
    if f.sid != SID_CONTROL || |f.payload| < 8 then RaiseFatal(s, CODE_PROTOCOL)
    else Queue(s, GoAway(Get32(f.payload, 0), Get32(f.payload, 4)))
  }

  function OnCapacity(s: Session, f: Frame): Session {
    if f.sid != SID_CONTROL || |f.payload| != 4 then RaiseFatal(s, CODE_PROTOCOL)
    else Queue(s, Capacity(Get32(f.payload, 0)))
  }

  /** Parameters read before a malformed TLV stay in place, as in the library. */
  function OnHello(s: Session, f: Frame, ack: bool): Session
    requires GoodConfig(s.cfg)
  {
    if f.sid != SID_CONTROL || s.helloSeen then RaiseFatal(s, CODE_PROTOCOL)
    else
      var (p, ok) := ReadTlvs(Params(s.peerMax, s.peerInit, s.sendWin, NO_INFO), f.payload, 0);
      var s1 := s.(peerMax := p.peerMax, peerInit := p.peerInit, sendWin := p.sendWin);
      if !ok then RaiseFatal(s1, CODE_PROTOCOL)
      else
        var s2 := Queue(s1.(helloSeen := true), PeerHello(p.info));
        if !ack && s.role.Acceptor? && !s.helloSent then SendHello(s2, true) else s2
  }

  /** One received frame. `order` is the table order of the streams, used by the connection sweep. */
  function Process(s: Session, f: Frame, order: seq<Sid>): Session
    requires GoodConfig(s.cfg)
  {
    if !s.helloSeen && f.typ != T_HELLO && f.typ != T_HELLO_ACK then RaiseFatal(s, CODE_PROTOCOL)
    else if f.typ == T_DATA then if HasSyn(f.flags) then OnSyn(s, f) else OnStreamData(s, f)
    else if f.typ == T_WINDOW_UPDATE then OnWindowUpdate(s, f, order)
    else if f.typ == T_PING then OnPing(s, f)
    else if f.typ == T_GOAWAY then OnGoAway(s, f)
    else if f.typ == T_HELLO then OnHello(s, f, false)
    else if f.typ == T_HELLO_ACK then OnHello(s, f, true)
    else if f.typ == T_CAPACITY then OnCapacity(s, f)
    else RaiseFatal(s, CODE_PROTOCOL)
  }

  ghost predicate Enumerates(order: seq<Sid>, keys: set<Sid>) {
    && (forall sid :: sid in order <==> sid in keys)
    && (forall i, j :: 0 <= i < j < |order| ==> order[i] != order[j])
  }

  // ---------------------------------------------------------------- host calls

  /** mux_open: the new id or an error code. */
  function OpenStream(s: Session, meta: seq<Byte>): (Session, int) {
    if s.dead || !s.helloSeen || s.localGoaway then (s, ERR_STATE)
    else if |meta| > MAX_META then (s, ERR_PARAM)
    else if |s.streams| >= s.peerMax then (s, ERR_NOMEM)
    else if s.nextSid == SID_CONTROL then (s, ERR_STATE)
    else
      var sid := s.nextSid;
      var s1 := s.(nextSid := (sid as int + 2) % U32_LIMIT);
      var (s2, ok) := Emit(s1, SynFrame(sid, meta));
      if ok then (s2.(streams := s2.streams[sid := Fresh(s)]), sid) else (s2, ERR_NOMEM)
  }

  /** One DATA frame: both windows are debited by what went on the wire. */
  function SendChunk(s: Session, sid: Sid, p: seq<Byte>): (Session, bool)
    requires sid in s.streams && |p| <= MAX_DATA_FRAME
  {
    var (s1, ok) := Emit(s, DataFrame(sid, p));
    if !ok then (s1, false)
    else
      var st := s.streams[sid];
      (s1.(streams := s1.streams[sid := st.(sendWin := st.sendWin - |p|)], sendWin := s1.sendWin - |p|), true)
  }

  /** Chunked transmission; the count is what was placed before the output filled up. */
  function SendAll(s: Session, sid: Sid, p: seq<Byte>): (r: (Session, nat))
    requires sid in s.streams
    ensures r.1 <= |p|
    decreases |p|
  {
    if |p| == 0 then (s, 0)
    else
      var n := Min(|p|, MAX_DATA_FRAME);
      var (s1, ok) := SendChunk(s, sid, p[..n]);
      if !ok then (s1, 0)
      else
        var (s2, k) := SendAll(s1, sid, p[n..]);
        (s2, n + k)
  }

  /** mux_write: the bytes accepted or an error code. */
  function WriteStream(s: Session, sid: Sid, p: seq<Byte>): (Session, int) {
    if s.dead then (s, ERR_STATE)
    else if sid !in s.streams then (s, ERR_NOSTREAM)
    else if s.streams[sid].life.HalfLocal? then (s, ERR_STATE)
    else
      var room := Min(s.streams[sid].sendWin, s.sendWin);
      if room <= 0 then (SetBlocked(s, sid, true), 0)
      else
        var (s1, sent) := SendAll(s, sid, p[..Min(|p|, room)]);
        if sid in s1.streams && sent < |p| && (s1.streams[sid].sendWin <= 0 || s1.sendWin <= 0)
        then (SetBlocked(s1, sid, true), sent)
        else (s1, sent)
  }

  function CloseStream(s: Session, sid: Sid): (Session, int) {
    if s.dead then (s, ERR_STATE)
    else if sid !in s.streams then (s, ERR_NOSTREAM)
    else if s.streams[sid].life.HalfLocal? then (s, OK)
    else
      var (s1, ok) := Emit(s, FinFrame(sid));
      if !ok then (s1, ERR_NOMEM)
      else if s.streams[sid].life.HalfRemote? then (Remove(s1, sid), OK)
      else (s1.(streams := s1.streams[sid := s.streams[sid].(life := HalfLocal)]), OK)
  }

  function ResetStream(s: Session, sid: Sid, code: U32): (Session, int) {
    if s.dead then (s, ERR_STATE)
    else if sid !in s.streams then (s, OK)
    else (Remove(Emit(s, RstFrame(sid, code)).0, sid), OK)
  }

  function AddPending(s: Session, n: nat): Session { s.(recvPending := s.recvPending + n) }

  function AddStreamPending(s: Session, sid: Sid, n: nat): Session
    requires sid in s.streams
  {
    var st := s.streams[sid];
    s.(streams := s.streams[sid := st.(recvPending := st.recvPending + n)])
  }

  function Consume(s: Session, sid: Sid, n: nat): (Session, int) {
    if s.dead then (s, ERR_STATE)
    else if n == 0 then (s, OK)
    else
      var s1 := CreditSession(AddPending(s, n));
      if sid in s1.streams then (CreditStream(AddStreamPending(s1, sid, n), sid), OK) else (s1, OK)
  }

  function SendCapacity(s: Session, weight: U32): (Session, int) {
    if s.dead then (s, ERR_STATE)
    else
      var (s1, ok) := Emit(s, Frame(T_CAPACITY, 0, SID_CONTROL, Put32(weight)));
      (s1, if ok then OK else ERR_NOSPACE)
  }

  function SendGoAway(s: Session, reason: U32): (Session, int) {
    if s.dead then (s, ERR_STATE)
    else
      var (s1, ok) := Emit(s.(localGoaway := true),
                           Frame(T_GOAWAY, 0, SID_CONTROL, Put32(reason) + Put32(s.maxRemote)));
      (s1, if ok then OK else ERR_NOSPACE)
  }

  const U64_LIMIT := 0x1_0000_0000_0000_0000
  const NO_DEADLINE := U64_LIMIT - 1

  predicate PeerSilent(s: Session, now: nat) {
    && s.timer.outstanding && s.cfg.keepaliveTimeoutMs != 0
    && (now - s.timer.sentMs) % U64_LIMIT >= s.cfg.keepaliveTimeoutMs
  }

  function PingFrame(nonce: nat): Frame {
    Frame(T_PING, 0, SID_CONTROL, Put32(nonce / U32_LIMIT % U32_LIMIT) + Put32(nonce % U32_LIMIT))
  }

  function NextDeadline(s: Session): nat {
    var t := s.timer;
    if t.outstanding && s.cfg.keepaliveTimeoutMs != 0
    then Min(t.dueMs, (t.sentMs + s.cfg.keepaliveTimeoutMs) % U64_LIMIT) else t.dueMs
  }

  /** mux_on_timer at a 64-bit time: keepalive pings and the dead-peer check. */
  function OnTimer(s: Session, now: nat): (Session, nat) {
    if s.dead || s.cfg.heartbeatMs == 0 then (s, NO_DEADLINE)
    else
      var due := (now + s.cfg.heartbeatMs) % U64_LIMIT;
      if !s.timer.started then (s.(timer := s.timer.(started := true, dueMs := due)), due)
      else if PeerSilent(s, now) then (RaiseFatal(s, CODE_INTERNAL), NO_DEADLINE)
      else if now < s.timer.dueMs then (s, NextDeadline(s))
      else
        var (s1, ok) := Emit(s, PingFrame(s.timer.nonce));
        var s2 := if !ok then s1 else
          s1.(timer := s1.timer.(outstanding := true, sentMs := now, dueMs := due,
                                 nonce := (s1.timer.nonce + 1) % U64_LIMIT));
        (s2, NextDeadline(s2))
  }

  /** mux_send_advance: the host took the first `n` pending bytes (all of them if fewer). */
  function Advance(s: Session, n: nat): Session { s.(out := s.out[Min(n, |s.out|)..]) }

  function PopEvent(s: Session): (Session, Option<Event>) {
    if s.events == [] then (s, None) else (s.(events := s.events[1..]), Some(s.events[0]))
  }
}
